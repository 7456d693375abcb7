/** When a command is accepted, in terms a caller can check before the call. */
module Acceptance {
  import opened Models
  import opened Events
  import opened Ledger
  import opened Views
  import opened Commands
  import opened Consistency
  import opened Runs

  predicate KeyUsed(log: seq<StoredEvent>, key: string) {
    exists i :: 0 <= i < |log| && log[i].event.idempotencyKey == key
  }

  /** The idempotency keys of a ledger. */
  function KeysOf(log: seq<StoredEvent>): set<string> {
    set d | d in log :: d.event.idempotencyKey
  }

  lemma KeyUsedIff(log: seq<StoredEvent>, key: string)
    ensures KeyUsed(log, key) <==> key in KeysOf(log)
  {
    if d :| d in log && d.event.idempotencyKey == key {
      var i :| 0 <= i < |log| && log[i] == d;
    }
  }

  /** The other service has not written to the command's stream. */
  predicate OwnStream(v: View, step: Step) {
    if step.body.ActivationEvent? then VersionOf(v.versions, step.streamId) == 0
    else step.streamId == v.activation.streamId ==> v.activation.version == 0
  }

  /** Every stored event identity was derived from the event's own stream and key. */
  lemma IdentityFromKey(s: Sys, i: nat)
    requires Reachable(s) && i < |s.log|
    ensures s.log[i].event.eventId == EventId(s.view.dataSpaceId, s.log[i].event.streamId, s.log[i].event.idempotencyKey)
  {
    hide Reachable, Moves, At;
    PrefixReachable(s, i);
    var step := EventAdmitted(s, i);
  }

  /** An event with an unused key and the right version is appended. */
  lemma UnusedKeyAppends(dataSpaceId: Id, log: seq<StoredEvent>, e: Event, expected: nat)
    requires e.dataSpaceId == dataSpaceId && e.streamVersion == expected + 1
    requires forall d :: d in log ==> d.event.idempotencyKey != e.idempotencyKey && d.event.eventId != e.eventId
    ensures OutcomeOf(dataSpaceId, log, e, expected).Appended? <==> StreamLength(log, e.streamId) == expected
  {
  }

  lemma StreamOwned(s: Sys, step: Step)
    requires InSync(s) && (step.body.ActivationEvent? ==> step.streamId == s.view.activation.streamId)
    ensures StreamLength(s.log, step.streamId) == Expected(s.view, step) <==> OwnStream(s.view, step)
  {
    hide StreamLength;
    assert StreamInSync(s.view.versions, s.view.activation.streamId, s.view.activation.version, s.log, step.streamId);
  }

  lemma ActivationStream(s: Sys, step: Step)
    requires Admits(s.view, step) && step.body.ActivationEvent?
    ensures step.streamId == s.view.activation.streamId
  {
  }

  /** A command is accepted exactly when its guards hold, its idempotency key is unused, and its stream is not the
      other service's. */
  lemma AcceptedIff(s: Sys, step: Step)
    requires Reachable(s)
    ensures Accepted(s, step) <==> Admits(s.view, step) && !KeyUsed(s.log, step.key) && OwnStream(s.view, step)
  {
    hide Reachable, Admits, Consistent, WellFormed, InSync, Replay, KernelAuthored, ActivationAuthored, OutcomeOf, OwnStream;
    ReachableInv(s);
    if Admits(s.view, step) {
      if KeyUsed(s.log, step.key) {
        var i :| 0 <= i < |s.log| && s.log[i].event.idempotencyKey == step.key;
        UsedKeyRecordsNothing(s, step, s.log[i]);
      } else {
        if step.body.ActivationEvent? {
          ActivationStream(s, step);
        }
        StreamOwned(s, step);
        var e := EventOf(s.view, step);
        forall d | d in s.log ensures d.event.idempotencyKey != e.idempotencyKey && d.event.eventId != e.eventId {
          var i :| 0 <= i < |s.log| && s.log[i] == d;
          IdentityFromKey(s, i);
        }
        UnusedKeyAppends(s.view.dataSpaceId, s.log, e, Expected(s.view, step));
      }
    }
  }

  /** An accepted command leads to a reachable state, uses its key, and moves as its handler says. */
  lemma AcceptedMoves(s: Sys, step: Step)
    requires Reachable(s) && Accepted(s, step)
    ensures Reachable(Exec(s, step)) && Moves(s, step, Exec(s, step))
    ensures KeysOf(Exec(s, step).log) == KeysOf(s.log) + {step.key}
  {
    hide Reachable, Inv, Moves, Accepted;
    ReachableInv(s);
    ReachableStep(s, step);
    ExecMoves(s, step);
    LogGrows(s, step, Exec(s, step));
    KeysGrow(s.log, StoredFor(s, step));
  }

  lemma KeysGrow(log: seq<StoredEvent>, d: StoredEvent)
    ensures KeysOf(log + [d]) == KeysOf(log) + {d.event.idempotencyKey}
  {
    assert forall x :: x in log + [d] <==> x in log || x == d;
    assert (log + [d])[|log|] == d;
  }

  // ---- sequences of commands

  /** Each command of the sequence is accepted in the state that the ones before it lead to. */
  ghost predicate AllAccepted(s: Sys, steps: seq<Step>) {
    steps == [] || (AllAccepted(s, steps[..|steps| - 1]) && Accepted(Run(s, steps[..|steps| - 1]), steps[|steps| - 1]))
  }

  lemma RunSnoc(s: Sys, steps: seq<Step>, step: Step)
    ensures Run(s, steps + [step]) == Exec(Run(s, steps), step)
    ensures AllAccepted(s, steps + [step]) <==> AllAccepted(s, steps) && Accepted(Run(s, steps), step)
  {
    hide Exec, Accepted;
    assert (steps + [step])[..|steps|] == steps;
  }

  lemma {:induction false} RunConcat(s: Sys, xs: seq<Step>, ys: seq<Step>)
    ensures Run(s, xs + ys) == Run(Run(s, xs), ys)
    ensures AllAccepted(s, xs + ys) <==> AllAccepted(s, xs) && AllAccepted(Run(s, xs), ys)
  {
    hide Exec, Accepted, Run, AllAccepted;
    if ys == [] {
      assert xs + ys == xs;
      NothingRun(Run(s, xs));
    } else {
      var front, last := ys[..|ys| - 1], ys[|ys| - 1];
      RunConcat(s, xs, front);
      assert xs + ys == (xs + front) + [last] && ys == front + [last];
      RunSnoc(s, xs + front, last);
      RunSnoc(Run(s, xs), front, last);
    }
  }

  lemma NothingRun(s: Sys)
    ensures Run(s, []) == s && AllAccepted(s, [])
  {
    hide Exec, Accepted;
  }

  lemma {:induction false} RunStaysReachable(s: Sys, steps: seq<Step>)
    requires Reachable(s)
    ensures Reachable(Run(s, steps))
  {
    hide Exec, Reachable;
    if steps != [] {
      RunStaysReachable(s, steps[..|steps| - 1]);
      ReachableStep(Run(s, steps[..|steps| - 1]), steps[|steps| - 1]);
    }
  }
}
