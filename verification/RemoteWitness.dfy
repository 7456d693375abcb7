/** Runs over the remote ledger on which its law fails: another command overtakes an unanswered one, and an owner's
    approval whose answer was lost can never be given again. */
module RemoteWitness {
  import opened Models
  import opened Events
  import opened Ledger
  import opened Views
  import opened Commands
  import opened Consistency
  import opened Runs
  import opened Acceptance
  import opened Witness
  import opened Lethe
  import opened Remote
  import opened RemoteRetry

  // ---- sessions without losses

  /** Every command is tried once and its POST is answered. */
  function AsTries(steps: seq<Step>): seq<RemoteStep> {
    if steps == [] then [] else AsTries(steps[..|steps| - 1]) + [Tries(steps[|steps| - 1], Delivered, GetLost, false)]
  }

  lemma RemoteSnoc(x: Remote, steps: seq<RemoteStep>, s: RemoteStep)
    ensures RemoteRun(x, steps + [s]) == RemoteAfter(RemoteRun(x, steps), s)
  {
    hide RemoteAfter;
    assert (steps + [s])[..|steps|] == steps;
  }

  lemma {:induction false} TriesRun(steps: seq<Step>)
    ensures var s := Run(Start(SPACE, STREAM), steps); RemoteRun(RemoteStart(SPACE, STREAM), AsTries(steps)) == Remote(s, Lake(s.log, {}), None)
  {
    hide Exec, RemoteAfter;
    if steps != [] {
      var front, last := steps[..|steps| - 1], steps[|steps| - 1];
      TriesRun(front);
      RemoteSnoc(RemoteStart(SPACE, STREAM), AsTries(front), Tries(last, Delivered, GetLost, false));
      RunReachable(SPACE, STREAM, front);
      OneTry(Run(Start(SPACE, STREAM), front), last);
    }
  }

  lemma OneTry(s: Sys, c: Step)
    requires Reachable(s)
    ensures RemoteAfter(Remote(s, Lake(s.log, {}), None), Tries(c, Delivered, GetLost, false)) == Remote(Exec(s, c), Lake(Exec(s, c).log, {}), None)
  {
    hide Reachable, Inv, Admits, OutcomeOf, Handle, Dead, Mutated;
    ReachableInv(s);
    if Admits(s.view, c) {
      AppendIsExec(s, c);
      NeverDuplicate(s, c);
      if Accepted(s, c) {
        AppendedAt(s, c);
        MutatedIsExec(s, c, c.recordedAt, Appended(|s.log| + 1, Expected(s.view, c) + 1));
      } else {
        RefusedIsDead(s, c);
      }
    }
  }

  lemma AppendedAt(s: Sys, c: Step)
    requires Accepted(s, c)
    ensures OutcomeOf(s.view.dataSpaceId, s.log, EventOf(s.view, c), Expected(s.view, c)) == Appended(|s.log| + 1, Expected(s.view, c) + 1)
    ensures c.(recordedAt := c.recordedAt) == c
  {
    hide Admits;
  }

  // ---- an approval that is lost

  const APPROVAL := Human0(STREAM, ActivationEvent(ActivationApproved("assessment", 0)), "6")

  /** The owner approves the activation, the approval is stored, and its answer is lost: the ledger replays to an
      activated plane. By StuckForGood no retry at another clock reading is ever answered: the live plane stays inactive. */
  lemma ApprovalLost() returns (steps: seq<RemoteStep>)
    ensures CanRun(RemoteStart(SPACE, STREAM), steps)
    ensures var x := RemoteRun(RemoteStart(SPACE, STREAM), steps);
            && RemoteInv(x) && StoredBy(x, APPROVAL) && ReadsClock(APPROVAL.body)
            && x.known.view.activation.stage.AwaitingOwner? && Replayed(x).Ok? && Replayed(x).value.activation.stage.Activated?
  {
    hide Built, Reachable, Accepted, Exec, RemoteAfter, RemoteRun, CanRun, Replay, RemoteInv;
    var session, s := Assessed();
    ServicesOf(session, s, {"1", "2", "3", "4", "5"});
    BuiltTries(session, s, {"1", "2", "3", "4", "5"});
    ApprovalAccepted(session, s);
    var lost := Tries(APPROVAL, NoResponse(Now), GetLost, false);
    steps := AsTries(session) + [lost];
    RemoteSnoc(RemoteStart(SPACE, STREAM), AsTries(session), lost);
    TriesCanRun(session);
    CanRunSnoc(RemoteStart(SPACE, STREAM), AsTries(session), lost);
    RetryingFirstSuffices(SPACE, STREAM, steps);
    LostTry(s, APPROVAL);
    ReachableStep(s, APPROVAL);
    InvKept(s, APPROVAL);
    ReplayedKnown(Exec(s, APPROVAL));
  }

  lemma BuiltTries(steps: seq<Step>, s: Sys, keys: set<string>)
    requires Built(steps, s, keys)
    ensures Reachable(s) && KeysOf(s.log) == keys
    ensures RemoteRun(RemoteStart(SPACE, STREAM), AsTries(steps)) == Remote(s, Lake(s.log, {}), None)
  {
    hide Run, RemoteRun, Reachable;
    BuiltReachable(steps, s, keys);
    TriesRun(steps);
  }

  lemma CanRunSnoc(x: Remote, steps: seq<RemoteStep>, s: RemoteStep)
    requires CanRun(x, steps) && CanTry(RemoteRun(x, steps), s)
    ensures CanRun(x, steps + [s])
  {
    hide RemoteAfter, CanTry;
    assert (steps + [s])[..|steps|] == steps;
  }

  lemma {:induction false} TriesCanRun(steps: seq<Step>)
    ensures CanRun(RemoteStart(SPACE, STREAM), AsTries(steps))
  {
    hide RemoteRun, Run;
    if steps != [] {
      var front := steps[..|steps| - 1];
      TriesCanRun(front);
      TriesRun(front);
      CanRunSnoc(RemoteStart(SPACE, STREAM), AsTries(front), Tries(steps[|steps| - 1], Delivered, GetLost, false));
    }
  }

  lemma ApprovalAccepted(steps: seq<Step>, s: Sys)
    requires Built(steps, s, {"1", "2", "3", "4", "5"}) && Imported(s)
    requires var a := s.view.activation;
             a.stage.AwaitingOwner? && a.assessment.Some? && a.assessment.value.assessmentId == "assessment" && a.streamId == STREAM
    ensures Accepted(s, APPROVAL) && Exec(s, APPROVAL).view.activation.stage.Activated?
  {
    hide Run, Reachable, Accepted, Exec, Moves, KeysOf;
    BuiltReachable(steps, s, {"1", "2", "3", "4", "5"});
    KeyUsedIff(s.log, "6");
    AcceptedIff(s, APPROVAL);
    AcceptedMoves(s, APPROVAL);
    ActivationMove(s, APPROVAL, Exec(s, APPROVAL));
  }

  lemma LostTry(s: Sys, c: Step)
    requires Reachable(s) && Accepted(s, c)
    ensures RemoteAfter(Remote(s, Lake(s.log, {}), None), Tries(c, NoResponse(Now), GetLost, false)) == Remote(s, Lake(Exec(s, c).log, {}), Some(c))
  {
    hide Reachable, Admits, OutcomeOf, Handle, Dead;
    AppendIsExec(s, c);
  }

  // ---- why another command may not overtake

  const OTHER := NODE.(nodeId := "m")

  const FIRST := Human0("n", NodeRegistered(NODE), "1")

  const SECOND := Human0("m", NodeRegistered(OTHER), "2")

  /** Another command that is answered after an unanswered one was stored leaves the live views without the first, and
      nothing waits any more. */
  lemma OvertakingLags() returns (steps: seq<RemoteStep>)
    ensures var x := RemoteRun(RemoteStart(SPACE, STREAM), steps);
            x.pending.None? && Replayed(x).Ok? && !Law(x)
  {
    hide Reachable, Accepted, Exec, RemoteAfter, RemoteRun, Replay;
    var s := Start(SPACE, STREAM);
    ReachableStart(SPACE, STREAM);
    FirstAccepted();
    ReachableStep(s, FIRST);
    InvKept(s, FIRST);
    var t := Exec(s, FIRST);
    SecondAccepted(t);
    ReachableStep(t, SECOND);
    InvKept(t, SECOND);
    ReplayedKnown(Exec(t, SECOND));
    var first, second := Tries(FIRST, NoResponse(Now), GetLost, false), Tries(SECOND, Delivered, GetLost, false);
    steps := [first, second];
    TwoSteps(first, second);
    FirstLost();
    SecondOvertakes(t);
    var x := RemoteRun(RemoteStart(SPACE, STREAM), steps);
    assert "n" in Exec(t, SECOND).view.work.nodes && "n" !in x.known.view.work.nodes by { assert "n"[0] != "m"[0]; }
  }

  lemma TwoSteps(first: RemoteStep, second: RemoteStep)
    ensures RemoteRun(RemoteStart(SPACE, STREAM), [first, second]) == RemoteAfter(RemoteAfter(RemoteStart(SPACE, STREAM), first), second)
  {
    hide RemoteAfter;
    var start, both := RemoteStart(SPACE, STREAM), [first, second];
    assert both[..|both| - 1] == [first];
    assert RemoteRun(start, [first]) == RemoteAfter(RemoteRun(start, []), first);
  }

  lemma FirstAccepted()
    ensures Accepted(Start(SPACE, STREAM), FIRST) && Exec(Start(SPACE, STREAM), FIRST).view.work.nodes == map["n" := NODE]
    ensures Exec(Start(SPACE, STREAM), FIRST).view.versions == map["n" := 1]
    ensures Exec(Start(SPACE, STREAM), FIRST).log == [StoredFor(Start(SPACE, STREAM), FIRST)]
  {
    hide AdmitsAgents, AdmitsEffects, AdmitsRoutes, AdmitsActivation, ApplyAgents, ApplyEffects, ApplyRoutes, ApplyActivation;
  }

  lemma SecondAccepted(t: Sys)
    requires t == Exec(Start(SPACE, STREAM), FIRST)
    ensures Accepted(t, SECOND) && Exec(t, SECOND).view.work.nodes == map["n" := NODE, "m" := OTHER]
    ensures Exec(t, SECOND).log == t.log + [StoredFor(t, SECOND)] && EventOf(t.view, SECOND) == EventOf(Start(SPACE, STREAM).view, SECOND)
  {
    hide AdmitsAgents, AdmitsEffects, AdmitsRoutes, AdmitsActivation, ApplyAgents, ApplyEffects, ApplyRoutes, ApplyActivation;
    FirstAccepted();
    assert "n" != "m" by { assert "n"[0] != "m"[0]; }
    assert "1" != "2" by { assert "1"[0] != "2"[0]; }
  }

  lemma FirstLost()
    ensures RemoteAfter(RemoteStart(SPACE, STREAM), Tries(FIRST, NoResponse(Now), GetLost, false))
            == Remote(Start(SPACE, STREAM), Lake(Exec(Start(SPACE, STREAM), FIRST).log, {}), Some(FIRST))
  {
    hide Exec;
    FirstAccepted();
  }

  lemma SecondOvertakes(t: Sys)
    requires t == Exec(Start(SPACE, STREAM), FIRST)
    ensures var x := RemoteAfter(Remote(Start(SPACE, STREAM), Lake(t.log, {}), Some(FIRST)), Tries(SECOND, Delivered, GetLost, false));
            x.lake.log == Exec(t, SECOND).log && x.known.view.work.nodes == map["m" := OTHER] && x.pending.None?
            && x.known.view.dataSpaceId == SPACE && x.known.view.activation.streamId == STREAM
  {
    hide Exec;
    SecondAccepted(t);
  }
}
