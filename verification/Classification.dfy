/** How a job tells an editor crash from other failures: an error code and a substring test on
    the composed message. */
module Classification {
  import opened Bridge
  import opened JobBoard
  import opened JobLog
  import opened Rpc

  const MARK := "disconnected"

  /** No 's' is followed by a 'c'. */
  predicate NoMarkPair(text: string)
  {
    forall i | 0 <= i < |text| - 1 :: text[i] == 's' ==> text[i + 1] != 'c'
  }

  lemma NoMarkWithoutPair(text: string)
    requires NoMarkPair(text)
    ensures !Contains(text, MARK)
  {
    forall i: nat | OccursAt(text, MARK, i)
      ensures text[i + 2] == 's' && text[i + 3] == 'c'
    {
      MarkHasPair(text, i);
    }
  }

  lemma MarkHasPair(text: string, i: nat)
    requires OccursAt(text, MARK, i)
    ensures text[i + 2] == 's' && text[i + 3] == 'c'
  {
    var part := text[i..i + |MARK|];
    assert part[2] == 's' && part[3] == 'c';
  }

  function NotConnected(detail: string): string
  {
    "Editor not connected: " + detail
  }

  lemma SweepTextParts()
    ensures DISCONNECTED_TEXT == "editor " + MARK + " before tool result"
  {
  }

  lemma SweepMessageHasMark()
    ensures Contains(NotConnected(DISCONNECTED_TEXT), MARK)
  {
    var before, after := "editor ", " before tool result";
    var prefix := "Editor not connected: ";
    SweepTextParts();
    ContainsMiddle(prefix + before, MARK, after);
    Reassociate(prefix, before, MARK, after);
  }

  lemma Reassociate(a: string, b: string, c: string, d: string)
    ensures (a + b) + c + d == a + (b + c + d)
  {
  }

  lemma JoinedNoPair(a: string, b: string)
    requires NoMarkPair(a) && NoMarkPair(b)
    requires b != "" ==> b[0] != 'c'
    ensures NoMarkPair(a + b)
  {
  }

  lemma PrefixHasNoPair()
    ensures NoMarkPair("Editor not connected: ")
  {
  }

  lemma NoPluginHasNoPair()
    ensures NoMarkPair("no plugin connected") && "no plugin connected"[0] == 'n'
  {
  }

  lemma GoneHasNoPair()
    ensures NoMarkPair(GONE_TEXT) && GONE_TEXT[0] == 't'
  {
  }

  lemma AmbiguousHasNoPair()
    ensures NoMarkPair(AMBIGUOUS_TEXT) && |AMBIGUOUS_TEXT| > 0 && AMBIGUOUS_TEXT[0] == 'm'
  {
    AmbiguousPartsHaveNoPair();
    JoinedNoPair("multiple editors connected ", "and no active one set; ");
    JoinedNoPair("multiple editors connected " + "and no active one set; ", "pass _editor or call set_active_editor");
  }

  lemma AmbiguousPartsHaveNoPair()
    ensures NoMarkPair("multiple editors connected ") && "multiple editors connected "[0] == 'm'
    ensures NoMarkPair("and no active one set; ")
    ensures NoMarkPair("pass _editor or call set_active_editor")
  {
  }

  lemma RoutingMessagesHaveNoMark(detail: string)
    requires detail == "no plugin connected" || detail == GONE_TEXT || detail == AMBIGUOUS_TEXT
    ensures !Contains(NotConnected(detail), MARK)
  {
    PrefixHasNoPair();
    NoPluginHasNoPair();
    GoneHasNoPair();
    AmbiguousHasNoPair();
    JoinedNoPair("Editor not connected: ", detail);
    NoMarkWithoutPair(NotConnected(detail));
  }

  // ---- The message that quotes the caller's target ----

  const OPENING := "no editor session matches '"
  const QUOTE_START := "Editor not connected: " + OPENING
  const QUOTE_END := "' (use list_editors)"

  lemma NoMatchMessage(target: string)
    ensures NotConnected(NoMatchText(target)) == QUOTE_START + target + QUOTE_END
  {
    QuoteAround("Editor not connected: ", OPENING, target, QUOTE_END);
  }

  lemma QuoteAround(a: string, b: string, c: string, d: string)
    ensures a + (b + c + d) == (a + b) + c + d
  {
  }

  /** A text cannot straddle a quotation mark it does not hold. */
  lemma OccursInsideQuotes(before: string, target: string, after: string, part: string, i: nat)
    requires before != "" && before[|before| - 1] == '\''
    requires after != "" && after[0] == '\''
    requires part != "" && '\'' !in part
    requires OccursAt(before + target + after, part, i)
    ensures
      || OccursAt(before, part, i)
      || (i >= |before| + |target| && OccursAt(after, part, i - |before| - |target|))
      || (i >= |before| && OccursAt(target, part, i - |before|))
  {
    var text := before + target + after;
    var opening, closing := |before| - 1, |before| + |target|;
    assert text[opening] == '\'' && text[closing] == '\'';
    forall j | i <= j < i + |part| ensures text[j] != '\'' {
      assert text[j] == text[i..i + |part|][j - i];
    }
    if i + |part| <= |before| {
      assert before[i..i + |part|] == text[i..i + |part|];
    } else if i >= closing {
      assert after[i - closing..i - closing + |part|] == text[i..i + |part|];
    } else {
      assert target[i - |before|..i - |before| + |part|] == text[i..i + |part|];
    }
  }

  lemma QuoteStartHasNoPair()
    ensures NoMarkPair(QUOTE_START)
    ensures |QUOTE_START| > 0 && QUOTE_START[|QUOTE_START| - 1] == '\''
  {
    PrefixHasNoPair();
    OpeningHasNoPair();
    JoinedNoPair("Editor not connected: ", OPENING);
  }

  lemma OpeningHasNoPair()
    ensures NoMarkPair(OPENING)
    ensures |OPENING| > 0 && OPENING[0] == 'n' && OPENING[|OPENING| - 1] == '\''
  {
  }

  lemma QuoteEndHasNoPair()
    ensures NoMarkPair(QUOTE_END)
    ensures |QUOTE_END| > 0 && QUOTE_END[0] == '\''
  {
  }

  /** A part that neither side of the quotes holds, and that holds no quotation mark, occurs in the
      quoted text exactly when it occurs between the quotes. */
  lemma QuotedContainsIff(before: string, target: string, after: string, part: string)
    requires before != "" && before[|before| - 1] == '\''
    requires after != "" && after[0] == '\''
    requires part != "" && '\'' !in part
    requires !Contains(before, part) && !Contains(after, part)
    ensures Contains(before + target + after, part) <==> Contains(target, part)
  {
    var text := before + target + after;
    if Contains(text, part) {
      var i: nat :| 0 <= i <= |text| && OccursAt(text, part, i);
      OccursInsideQuotes(before, target, after, part, i);
    }
    if Contains(target, part) {
      var i: nat :| 0 <= i <= |target| && OccursAt(target, part, i);
      assert text[|before| + i..|before| + i + |part|] == target[i..i + |part|];
      assert OccursAt(text, part, |before| + i);
    }
  }

  lemma QuoteSidesHaveNoMark()
    ensures QUOTE_START != "" && QUOTE_START[|QUOTE_START| - 1] == '\'' && !Contains(QUOTE_START, MARK)
    ensures QUOTE_END != "" && QUOTE_END[0] == '\'' && !Contains(QUOTE_END, MARK)
  {
    QuoteStartHasNoPair();
    QuoteEndHasNoPair();
    NoMarkWithoutPair(QUOTE_START);
    NoMarkWithoutPair(QUOTE_END);
  }

  /** The no-match message holds the mark exactly when the target it quotes does. */
  lemma NoMatchHasMarkIff(target: string)
    ensures Contains(NotConnected(NoMatchText(target)), MARK) <==> Contains(target, MARK)
  {
    NoMatchMessage(target);
    QuoteSidesHaveNoMark();
    QuotedContainsIff(QUOTE_START, target, QUOTE_END, MARK);
  }

  // ---- Causes and states ----

  /** The causes that leave a remote job "editor_crashed". */
  ghost predicate CountsAsCrash(cause: Cause)
  {
    match cause
    case Disconnected(_) => true
    case NoMatch(target) => Has(target, "disconnected")
    case Replied(Err(e)) => e.code == -32001 && Has(e.message, "disconnected")
    case _ => false
  }

  /** An error is taken for a crash exactly when the close sweep failed its call, or a text
      the server does not control holds the mark: a target that matches no editor, or an error
      sent by the plugin. Time-out, stop and every fixed-text routing error are none. */
  lemma CrashIff(cause: Cause, result: ToolResult)
    requires Yields(cause, result)
    ensures result.Err? && FailureState(true, result.error) == EditorCrashed <==> CountsAsCrash(cause)
  {
    match cause
    case NoMatch(target) =>
      NoMatchHasMarkIff(target);
      ContainsIffHas(target, MARK);
    case NoPlugin => RoutingMessagesHaveNoMark("no plugin connected");
    case Ambiguous =>
      AmbiguousParts();
      RoutingMessagesHaveNoMark(AMBIGUOUS_TEXT);
    case Gone => RoutingMessagesHaveNoMark(GONE_TEXT);
    case Disconnected(_) => SweepMessageHasMark();
    case Replied(Err(e)) => ContainsIffHas(e.message, MARK);
    case _ =>
  }
}
