/** The bounded, self-renumbering log of a job, and polling it with a cursor. */
module JobLog {
  import opened JsonValues

  datatype JobState =
    | Queued
    | Dispatched
    | Running
    | WaitingEditor
    | CancelRequested
    | Completed
    | Failed
    | EditorCrashed

  datatype LogBody = LogBody(timeMs: int, level: string, state: JobState, message: string, data: Json)

  /** An entry carries its position in the buffer. */
  datatype LogEntry = LogEntry(seqNo: nat, body: LogBody)

  const MAX_ENTRIES := 500

  function Renumbered(entries: seq<LogEntry>): (r: seq<LogEntry>)
    ensures |r| == |entries|
  {
    seq(|entries|, i requires 0 <= i < |entries| => LogEntry(i, entries[i].body))
  }

  /** The buffer after one more entry. */
  function Appended(logs: seq<LogEntry>, body: LogBody): seq<LogEntry>
  {
    var longer := logs + [LogEntry(|logs|, body)];
    if |longer| > MAX_ENTRIES then Renumbered(longer[|longer| - MAX_ENTRIES..]) else longer
  }

  method Append(logs: seq<LogEntry>, body: LogBody) returns (r: seq<LogEntry>)
    ensures r == Appended(logs, body)
  {
    r := logs + [LogEntry(|logs|, body)];
    if |r| > MAX_ENTRIES {
      var removeCount := |r| - MAX_ENTRIES;
      r := r[removeCount..];
      ghost var kept := r;
      for i := 0 to |r|
        invariant |r| == |kept|
        invariant forall j | 0 <= j < i :: r[j] == LogEntry(j, kept[j].body)
        invariant forall j | i <= j < |r| :: r[j] == kept[j]
      {
        r := r[i := LogEntry(i, r[i].body)];
      }
    }
  }

  // ---- The buffer against the full history ----

  function Shift(total: nat): nat
  {
    if total > MAX_ENTRIES then total - MAX_ENTRIES else 0
  }

  function Numbered(bodies: seq<LogBody>): (r: seq<LogEntry>)
    ensures |r| == |bodies|
  {
    seq(|bodies|, i requires 0 <= i < |bodies| => LogEntry(i, bodies[i]))
  }

  /** What the buffer holds after this history of appends: its last entries, at most 500,
      numbered from zero. */
  function LogView(history: seq<LogBody>): seq<LogEntry>
  {
    Numbered(history[Shift(|history|)..])
  }

  /** Appending to the buffer refines appending to the full history. */
  lemma AppendRefinesHistory(history: seq<LogBody>, body: LogBody)
    ensures Appended(LogView(history), body) == LogView(history + [body])
  {
    var longer := history + [body];
    if |longer| > MAX_ENTRIES {
      assert longer[Shift(|longer|)..] == history[Shift(|longer|)..] + [body];
    } else {
      assert longer[0..] == longer && history[0..] == history;
    }
  }

  function AppendAll(logs: seq<LogEntry>, bodies: seq<LogBody>): seq<LogEntry>
  {
    if bodies == [] then logs
    else Appended(AppendAll(logs, bodies[..|bodies| - 1]), bodies[|bodies| - 1])
  }

  /** After any number of appends the buffer holds min(500, total) entries; entry i carries the
      number i and, number aside, is the one appended at position total - size + i. */
  lemma {:induction false} BufferIsLastEntries(bodies: seq<LogBody>)
    ensures var logs := AppendAll([], bodies);
            && logs == LogView(bodies)
            && |logs| == (if |bodies| < 500 then |bodies| else 500)
            && forall i | 0 <= i < |logs| ::
                 logs[i].seqNo == i && logs[i].body == bodies[|bodies| - |logs| + i]
  {
    if bodies != [] {
      var init, last := bodies[..|bodies| - 1], bodies[|bodies| - 1];
      BufferIsLastEntries(init);
      AppendRefinesHistory(init, last);
      assert init + [last] == bodies;
    }
  }

  // ---- Pages ----

  datatype Page = Page(cursor: nat, nextCursor: nat, logCount: nat, entries: seq<LogEntry>)

  function EffectiveLimit(limit: nat): (r: nat)
    ensures 1 <= r <= MAX_ENTRIES
  {
    if limit == 0 || limit > MAX_ENTRIES then 100 else limit
  }

  function Min(a: nat, b: nat): nat
  {
    if a < b then a else b
  }

  function PageOf(logs: seq<LogEntry>, cursor: nat, limit: nat): Page
  {
    var end := Min(cursor + EffectiveLimit(limit), |logs|);
    var entries := if cursor < |logs| then logs[cursor..end] else [];
    Page(cursor, Min(cursor + |entries|, |logs|), |logs|, entries)
  }

  method ReadPage(logs: seq<LogEntry>, cursor: nat, limit: nat) returns (page: Page)
    ensures page == PageOf(logs, cursor, limit)
  {
    var effective := if limit == 0 || limit > MAX_ENTRIES then 100 else limit;
    var entries: seq<LogEntry> := [];
    var i := cursor;
    while i < |logs| && |entries| < effective
      invariant cursor <= i && (cursor <= |logs| ==> i <= |logs|)
      invariant |entries| == i - cursor && |entries| <= effective
      invariant i > cursor ==> i <= |logs| && entries == logs[cursor..i]
    {
      entries := entries + [logs[i]];
      i := i + 1;
    }
    page := Page(cursor, Min(cursor + |entries|, |logs|), |logs|, entries);
  }

  /** The clamping of the tool's integer arguments. */
  function RequestedPage(logs: seq<LogEntry>, cursor: int, limit: int): Page
  {
    PageOf(logs, if cursor < 0 then 0 else cursor, if limit < 1 then 1 else limit)
  }

  /** The page a caller gets for these integers: it starts at the cursor asked for, or at 0 when that
      is negative, and holds the log from there on, as much of it as the limit allows; a limit below 1
      allows one entry and one above 500 allows 100. A cursor at or past the end gets no entry. */
  ghost predicate IsPageFor(page: Page, logs: seq<LogEntry>, cursor: int, limit: int)
  {
    var from := if cursor < 0 then 0 else cursor;
    var allowed := if limit < 1 then 1 else if limit > 500 then 100 else limit;
    && page.cursor == from && page.logCount == |logs|
    && if from >= |logs| then page.entries == [] && page.nextCursor == |logs|
       else
         && page.nextCursor == (if from + allowed < |logs| then from + allowed else |logs|)
         && page.entries == logs[from..page.nextCursor]
  }

  lemma RequestedPageIsFor(logs: seq<LogEntry>, cursor: int, limit: int)
    ensures IsPageFor(RequestedPage(logs, cursor, limit), logs, cursor, limit)
  {
  }

  /** A poll below the current count always advances beyond the cursor it was asked with. */
  lemma PollAdvances(logs: seq<LogEntry>, cursor: int, limit: int)
    requires 0 < |logs| && cursor < |logs|
    ensures var page := RequestedPage(logs, cursor, limit);
            var from := if cursor < 0 then 0 else cursor;
            from < page.nextCursor <= |logs| && page.entries == logs[from..page.nextCursor]
  {
    RequestedPageIsFor(logs, cursor, limit);
  }

  // ---- Following next_cursor ----

  datatype Action =
    | Grow(body: LogBody)
    | Poll(limit: int)

  /** The log's history, the reader's cursor, and the pages read so far, concatenated. */
  datatype Reader = Reader(history: seq<LogBody>, cursor: nat, read: seq<LogEntry>)

  function Act(r: Reader, action: Action): Reader
  {
    match action
    case Grow(body) => r.(history := r.history + [body])
    case Poll(limit) =>
      var page := RequestedPage(LogView(r.history), r.cursor, limit);
      r.(cursor := page.nextCursor, read := r.read + page.entries)
  }

  function ActAll(r: Reader, actions: seq<Action>): Reader
  {
    if actions == [] then r
    else Act(ActAll(r, actions[..|actions| - 1]), actions[|actions| - 1])
  }

  lemma ShortHistoryIsWhole(history: seq<LogBody>)
    requires |history| <= MAX_ENTRIES
    ensures LogView(history) == Numbered(history)
  {
    assert history[0..] == history;
  }

  lemma {:induction false} HistoryGrows(r: Reader, actions: seq<Action>)
    ensures r.history <= ActAll(r, actions).history
  {
    if actions != [] {
      HistoryGrows(r, actions[..|actions| - 1]);
    }
  }

  /** Polling is complete while at most 500 entries were ever appended: whatever appends come
      between the polls, the pages read from cursor c add up to exactly the entries from c to
      the new cursor, each once and in order. */
  lemma {:induction false} PollingIsComplete(start: Reader, actions: seq<Action>)
    requires start.cursor <= |start.history| && start.read == []
    requires |ActAll(start, actions).history| <= 500
    ensures var r := ActAll(start, actions);
            && start.cursor <= r.cursor <= |r.history|
            && r.read == Numbered(r.history)[start.cursor..r.cursor]
  {
    if actions != [] {
      var init := actions[..|actions| - 1];
      var before, r := ActAll(start, init), ActAll(start, actions);
      PollingIsComplete(start, init);
      ShortHistoryIsWhole(before.history);
      var all := Numbered(r.history);
      assert Numbered(before.history) == all[..|before.history|];
      match actions[|actions| - 1]
      case Grow(_) =>
        assert all[..|before.history|][start.cursor..r.cursor] == all[start.cursor..r.cursor];
      case Poll(limit) =>
        assert all[start.cursor..before.cursor] + all[before.cursor..r.cursor] == all[start.cursor..r.cursor];
    }
  }

  function Bodies(entries: seq<LogEntry>): (r: seq<LogBody>)
    ensures |r| == |entries|
  {
    seq(|entries|, i requires 0 <= i < |entries| => entries[i].body)
  }

  /** In terms of the full history, a page is the stretch that starts Shift(total) after its
      cursor. */
  lemma PageInHistory(history: seq<LogBody>, cursor: nat, limit: int)
    requires cursor <= |LogView(history)|
    ensures var page := RequestedPage(LogView(history), cursor, limit);
            var shift := Shift(|history|);
            && cursor <= page.nextCursor && shift + page.nextCursor <= |history|
            && Bodies(page.entries) == history[shift + cursor..shift + page.nextCursor]
  {
    var page := RequestedPage(LogView(history), cursor, limit);
    var shift := Shift(|history|);
    assert Bodies(page.entries) == history[shift + cursor..shift + page.nextCursor];
  }

  /** Two polls in a row read adjacent stretches of the full history exactly when the buffer
      dropped nothing between them; otherwise as many entries as it dropped are skipped unread. */
  lemma PollsAreAdjacentIff(before: seq<LogBody>, after: seq<LogBody>, cursor: nat, limit: int, limit': int)
    requires before <= after && cursor <= |LogView(before)|
    ensures var first := RequestedPage(LogView(before), cursor, limit);
            var second := RequestedPage(LogView(after), first.nextCursor, limit');
            var firstEnd := Shift(|before|) + first.nextCursor;
            var secondStart := Shift(|after|) + first.nextCursor;
            && firstEnd <= secondStart <= |after|
            && Bodies(first.entries) == after[Shift(|before|) + cursor..firstEnd]
            && Bodies(second.entries) <= after[secondStart..]
            && (secondStart == firstEnd <==> |after| <= 500 || |after| == |before|)
  {
    var first := RequestedPage(LogView(before), cursor, limit);
    PageInHistory(before, cursor, limit);
    PageInHistory(after, first.nextCursor, limit');
  }

  /** A reader whose cursor reached 500 never reads another entry, however many follow. */
  lemma {:induction false} PollingStallsAtTheEnd(start: Reader, actions: seq<Action>)
    requires start.cursor == 500 && |start.history| >= 500
    ensures ActAll(start, actions).read == start.read
    ensures ActAll(start, actions).cursor == 500
    ensures |ActAll(start, actions).history| >= 500
  {
    if actions != [] {
      PollingStallsAtTheEnd(start, actions[..|actions| - 1]);
    }
  }
}
