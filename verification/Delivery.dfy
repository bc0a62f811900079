/** From a tool_result on the wire to the value its call returns. */
module Delivery {
  import opened Bridge
  import opened BridgeInvariant
  import opened BridgeMachine
  import opened Encodings
  import opened JsonValues
  import opened Protocol
  import opened Results
  import opened Rpc
  import BT = BridgeTheorems

  /** The call has sent or is about to send its message, or waits, and has not given up. */
  predicate IsOpen(s: State, c: nat, tx: string)
  {
    c in s.calls && (s.calls[c].Sending? || s.calls[c].Awaiting?) && s.calls[c].tx == tx
  }

  /** The call will return this cause or has returned it: its promise is set to it. */
  ghost predicate IsDue(s: State, c: nat, tx: string, cause: Cause)
  {
    || (IsOpen(s, c, tx) && SetTo(s.sh, tx, cause))
    || (c in s.calls && s.calls[c] == Returned(cause, Some(tx)))
  }

  // ---- A set promise stays set ----

  lemma InsertKeepsSet(s: State, call: nat, tx: string, cause: Cause)
    requires CallInv(s) && SetTo(s.sh, tx, cause)
    ensures SetTo(ApplyInsert(s, call).sh, tx, cause)
  {
    if call in s.calls && s.calls[call].Inserting? {
      InsertKeepsCalls(s, call);
    }
  }

  lemma OwningKeepsPromises(s: State, step: Step)
    requires IsOwning(step) && !step.Insert?
    ensures Apply(s, step).sh.promises == s.sh.promises
  {
  }

  lemma RoutingKeepsShared(s: State, call: nat, step: Step)
    ensures ApplyRoute(s, call, step).sh == s.sh
  {
  }

  lemma OtherKeepsSet(s: State, step: Step, tx: string, cause: Cause)
    requires SetTo(s.sh, tx, cause) && !IsOwning(step) && !IsRouting(step)
    ensures SetTo(Apply(s, step).sh, tx, cause)
  {
  }

  lemma SetStays(s: State, step: Step, tx: string, cause: Cause)
    requires CallInv(s) && SetTo(s.sh, tx, cause)
    ensures SetTo(Apply(s, step).sh, tx, cause)
  {
    if step.Insert? {
      InsertKeepsSet(s, step.call, tx, cause);
    } else if IsOwning(step) {
      OwningKeepsPromises(s, step);
    } else if IsRouting(step) {
      RoutingKeepsShared(s, step.call, step);
    } else {
      OtherKeepsSet(s, step, tx, cause);
    }
  }

  // ---- An open call takes it ----

  lemma RoutingLeavesOpen(s: State, call: nat, step: Step, c: nat, tx: string)
    requires IsOpen(s, c, tx)
    ensures IsOpen(ApplyRoute(s, call, step), c, tx)
  {
  }

  lemma OwningTakes(s: State, step: Step, c: nat, tx: string, cause: Cause)
    requires IsOpen(s, c, tx) && SetTo(s.sh, tx, cause) && IsOwning(step)
    ensures IsOpen(Apply(s, step), c, tx)
         || (c in Apply(s, step).calls && Apply(s, step).calls[c] == Returned(cause, Some(tx)))
  {
  }

  lemma OtherLeavesOpen(s: State, step: Step, c: nat, tx: string)
    requires IsOpen(s, c, tx) && !IsOwning(step) && !IsRouting(step)
    ensures IsOpen(Apply(s, step), c, tx)
  {
  }

  lemma DueOneStep(s: State, step: Step, c: nat, tx: string, cause: Cause)
    requires Inv(s) && IsDue(s, c, tx, cause)
    ensures IsDue(Apply(s, step), c, tx, cause)
  {
    if IsOpen(s, c, tx) {
      SetStays(s, step, tx, cause);
      if IsOwning(step) {
        OwningTakes(s, step, c, tx, cause);
      } else if IsRouting(step) {
        RoutingLeavesOpen(s, step.call, step, c, tx);
      } else {
        OtherLeavesOpen(s, step, c, tx);
      }
    } else {
      BT.ReturnedStaysOneStep(s, step, c);
    }
  }

  lemma {:induction false} DueOn(s: State, more: seq<Step>, c: nat, tx: string, cause: Cause)
    requires Inv(s) && IsDue(s, c, tx, cause) && ExecFrom(s, more).issued <= TWO_TO_64
    ensures IsDue(ExecFrom(s, more), c, tx, cause)
  {
    if more != [] {
      var init, last := more[..|more| - 1], more[|more| - 1];
      IssuedStep(ExecFrom(s, init), last);
      DueOn(s, init, c, tx, cause);
      InvFrom(s, init);
      DueOneStep(ExecFrom(s, init), last, c, tx, cause);
    }
  }

  /** A call that has not given up when its promise is set returns what it is set to and never times
      out, whatever its deadline and whatever comes in between. */
  lemma SetPromiseIsReturned(callbackSet: bool, steps: seq<Step>, more: seq<Step>, c: nat, tx: string, cause: Cause)
    requires Exec(callbackSet, steps + more).issued <= TWO_TO_64
    requires IsOpen(Exec(callbackSet, steps), c, tx) && SetTo(Exec(callbackSet, steps).sh, tx, cause)
    ensures IsDue(Exec(callbackSet, steps + more), c, tx, cause)
  {
    ExecFromAppend(Start(callbackSet), steps, more);
    IssuedBefore(callbackSet, steps, more);
    InvAlways(callbackSet, steps);
    DueOn(Exec(callbackSet, steps), more, c, tx, cause);
  }

  /** Once such a call looks at its promise, it returns. */
  lemma LookingReturnsIt(s: State, c: nat, tx: string, cause: Cause, deadlinePassed: bool)
    requires c in s.calls && s.calls[c].Awaiting? && s.calls[c].tx == tx && SetTo(s.sh, tx, cause)
    ensures c in Apply(s, Decide(c, deadlinePassed)).calls
    ensures Apply(s, Decide(c, deadlinePassed)).calls[c] == Returned(cause, Some(tx))
  {
  }

  /** A call gives up only when its deadline has passed and its promise is not set. */
  lemma GivesUpOnlyUnanswered(s: State, step: Step, c: nat)
    requires c in s.calls && !s.calls[c].Expired?
    requires c in Apply(s, step).calls && Apply(s, step).calls[c].Expired?
    ensures step == Decide(c, true) && s.calls[c].Awaiting? && !IsSet(s.sh, s.calls[c].tx)
  {
    if IsRouting(step) {
      RoutingExpiresNothing(s, step.call, step, c);
    } else if IsOwning(step) {
      OwningExpires(s, step, c);
    }
  }

  lemma RoutingExpiresNothing(s: State, call: nat, step: Step, c: nat)
    requires c in s.calls && !s.calls[c].Expired?
    ensures c in ApplyRoute(s, call, step).calls && !ApplyRoute(s, call, step).calls[c].Expired?
  {
  }

  lemma OwningExpires(s: State, step: Step, c: nat)
    requires IsOwning(step) && c in s.calls && !s.calls[c].Expired?
    requires c in Apply(s, step).calls && Apply(s, step).calls[c].Expired?
    ensures step == Decide(c, true) && s.calls[c].Awaiting? && !IsSet(s.sh, s.calls[c].tx)
  {
  }

  // ---- From the wire to the caller ----

  lemma PendingIsUnsetAt(s: State, tx: string)
    requires PendingIsInFlight(s) && tx in s.sh.pending
    ensures tx in s.sh.promises && s.sh.promises[tx].Unset?
  {
  }

  lemma DeliveryOpens(s: State, c: nat, payload: Json, tx: string, result: ToolResult)
    requires PendingIsInFlight(s) && IsOpen(s, c, tx) && tx in s.sh.pending
    requires Says(payload, tx, result)
    ensures Apply(s, ToolResult(tx, result)) == s.(sh := Deliver(s.sh, payload))
    ensures IsOpen(Apply(s, ToolResult(tx, result)), c, tx)
    ensures SetTo(Apply(s, ToolResult(tx, result)).sh, tx, Replied(result))
  {
    PendingIsUnsetAt(s, tx);
    DeliverySets(s.sh, payload, tx, result);
    DeliveredIsAnswer(s.sh, payload, tx, result);
  }

  lemma ExecSnoc(callbackSet: bool, steps: seq<Step>, step: Step)
    ensures Exec(callbackSet, steps + [step]) == Apply(Exec(callbackSet, steps), step)
  {
    assert (steps + [step])[..|steps|] == steps;
  }

  lemma IssuedBefore(callbackSet: bool, first: seq<Step>, second: seq<Step>)
    ensures Exec(callbackSet, first).issued <= Exec(callbackSet, first + second).issued
  {
    ExecFromAppend(Start(callbackSet), first, second);
    IssuedGrows(Exec(callbackSet, first), second);
  }

  lemma DeliveryOpensInRun(callbackSet: bool, steps: seq<Step>, c: nat, payload: Json, tx: string, result: ToolResult)
    requires Exec(callbackSet, steps).issued <= TWO_TO_64
    requires IsOpen(Exec(callbackSet, steps), c, tx) && tx in Exec(callbackSet, steps).sh.pending
    requires Says(payload, tx, result)
    ensures var s, t := Exec(callbackSet, steps), Exec(callbackSet, steps + [ToolResult(tx, result)]);
            t == s.(sh := Deliver(s.sh, payload)) && IsOpen(t, c, tx) && SetTo(t.sh, tx, Replied(result))
  {
    InvAlways(callbackSet, steps);
    ExecSnoc(callbackSet, steps, ToolResult(tx, result));
    DeliveryOpens(Exec(callbackSet, steps), c, payload, tx, result);
  }

  /** When a tool_result arrives for a pending transaction whose call has not given up, that call
      returns exactly what the message says: its result or {}, or the failure it carries. */
  lemma SentResultIsReturned(callbackSet: bool, steps: seq<Step>, more: seq<Step>,
                             c: nat, tx: string, payload: Json, result: ToolResult)
    requires Says(payload, tx, result)
    requires IsOpen(Exec(callbackSet, steps), c, tx) && tx in Exec(callbackSet, steps).sh.pending
    requires Exec(callbackSet, steps + [ToolResult(tx, result)] + more).issued <= TWO_TO_64
    ensures var s := Exec(callbackSet, steps);
            Exec(callbackSet, steps + [ToolResult(tx, result)]) == s.(sh := Deliver(s.sh, payload))
    ensures IsDue(Exec(callbackSet, steps + [ToolResult(tx, result)] + more), c, tx, Replied(result))
  {
    var first := steps + [ToolResult(tx, result)];
    assert Exec(callbackSet, steps).issued <= Exec(callbackSet, first).issued <= TWO_TO_64 by {
      IssuedBefore(callbackSet, first, more);
      IssuedBefore(callbackSet, steps, [ToolResult(tx, result)]);
    }
    DeliveryOpensInRun(callbackSet, steps, c, payload, tx, result);
    assert IsDue(Exec(callbackSet, first + more), c, tx, Replied(result)) by {
      SetPromiseIsReturned(callbackSet, first, more, c, tx, Replied(result));
    }
  }

  lemma DeliveredIsAnswer(sh: Shared, payload: Json, tx: string, result: ToolResult)
    requires Says(payload, tx, result)
    ensures Deliver(sh, payload) == Bridge.Answer(sh, tx, result)
  {
    ReadsWhatItSays(payload);
    var read := ReadToolResult(payload).value;
    SaysOneThing(payload, tx, result, read.0, read.1);
  }
}
