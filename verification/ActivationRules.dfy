/** The activation protocol over whole runs. */
module ActivationRules {
  import opened Models
  import opened Events
  import opened Ledger
  import opened Views
  import opened Commands
  import opened Consistency
  import opened Runs
  import opened Activation

  lemma ActivationKnown(s: Sys)
    requires Reachable(s)
    ensures ActivationConsistent(s.view.activation)
  {
    hide Reachable, WellFormed, InSync, Replay, WorkConsistent, AgentsConsistent, RoutesKeyed, LeasesKeyed, KernelAuthored,
      ActivationAuthored, ActivationConsistent;
    ReachableInv(s);
  }

  // ---- starting over

  /** While reorienting, starting another attempt is admitted exactly when none is running. */
  lemma RestartEnabled(s: Sys, c: Caller)
    requires Reachable(s) && s.view.activation.stage.ReorientationOnly?
    ensures var a := s.view.activation;
            AdmitsActivation(s.view.dataSpaceId, a, Change(c, a.streamId, NextAttempt(a.stage, a.attempt), Pilot, NoContext))
            <==> !a.attempt.inProgress
  {
    hide Reachable;
    ActivationKnown(s);
  }

  /** While reorienting, exactly one of a running attempt, a recorded error and a requested revision holds. */
  lemma OneOfThree(s: Sys)
    requires Reachable(s) && s.view.activation.stage.ReorientationOnly?
    ensures var t := s.view.activation.attempt; ExactlyOne(t.inProgress, t.error.Some?, t.pendingRevision.Some?)
  {
    hide Reachable;
    ActivationKnown(s);
  }

  // ---- activated is final

  /** Once activated, the assessment, the approval time, the attempt and the spent budget stay. */
  predicate Settled(a: ActivationView, b: ActivationView) {
    a.stage.Activated? ==> b == a.(version := b.version)
  }

  lemma SettledApplied(dataSpaceId: Id, a: ActivationView, step: Step, stored: StoredEvent, b: ActivationView)
    requires step.body.ActivationEvent? && stored.event.body == step.body
    requires AdmitsActivation(dataSpaceId, a, step) && ApplyActivation(a, stored) == Ok(b)
    ensures Settled(a, b)
  {
  }

  lemma SettledMove(p: Sys, step: Step, s: Sys)
    requires Moves(p, step, s) && ActivationConsistent(p.view.activation)
    ensures Settled(p.view.activation, s.view.activation)
  {
    hide Moves, AdmitsActivation, ApplyActivation, AdmitsWork;
    ActivationMove(p, step, s);
    if step.body.ActivationEvent? {
      SettledApplied(p.view.dataSpaceId, p.view.activation, step, StoredFor(p, step), s.view.activation);
    } else if step.body.WorkGraphImported? {
      ImportBeforeHistory(p, step, s);
    }
  }

  lemma ImportBeforeHistory(p: Sys, step: Step, s: Sys)
    requires Moves(p, step, s) && step.body.WorkGraphImported?
    ensures p.view.activation.stage.Uncommissioned?
  {
    hide Moves, ApplyWork;
    WorkMove(p, step, s);
  }

  /** Between any two points of a run an activated service stays exactly as it was activated. */
  lemma {:induction false} ActivatedIsFinal(s: Sys, i: nat, j: nat)
    requires Reachable(s) && i <= j <= |s.log| && At(s, i).view.activation.stage.Activated?
    ensures var a, b := At(s, i).view.activation, At(s, j).view.activation; b == a.(version := b.version)
    decreases j - i
  {
    hide Reachable, At, Moves, ActivationConsistent;
    if i < j {
      ActivatedIsFinal(s, i, j - 1);
      var step := EventAdmitted(s, j - 1);
      PrefixReachable(s, j - 1);
      ActivationKnown(At(s, j - 1));
      SettledMove(At(s, j - 1), step, At(s, j));
    }
  }

  // ---- counters and sets as folds of the ledger

  function InputOf(b: EventBody): int {
    if b.ActivationEvent? && b.change.UsageRecorded? then b.change.inputTokens else 0
  }

  function OutputOf(b: EventBody): int {
    if b.ActivationEvent? && b.change.UsageRecorded? then b.change.outputTokens else 0
  }

  /** Tokens of all usage events of a ledger. */
  function InputTokens(log: seq<StoredEvent>): int {
    if log == [] then 0 else InputTokens(log[..|log| - 1]) + InputOf(log[|log| - 1].event.body)
  }

  function OutputTokens(log: seq<StoredEvent>): int {
    if log == [] then 0 else OutputTokens(log[..|log| - 1]) + OutputOf(log[|log| - 1].event.body)
  }

  predicate IsUsage(d: StoredEvent) {
    d.event.body.ActivationEvent? && d.event.body.change.UsageRecorded?
  }

  predicate IsQuery(d: StoredEvent) {
    d.event.body.ActivationEvent? && d.event.body.change.HistoryQueryResolved?
  }

  predicate IsApproval(d: StoredEvent) {
    d.event.body.ActivationEvent? && d.event.body.change.ActivationApproved?
  }

  lemma EvidenceApplied(dataSpaceId: Id, a: ActivationView, step: Step, d: StoredEvent, b: ActivationView)
    requires step.body.ActivationEvent? && d.event.body == step.body
    requires AdmitsActivation(dataSpaceId, a, step) && ApplyActivation(a, d) == Ok(b)
    ensures b.evidence.inputTokens == a.evidence.inputTokens + InputOf(step.body) && InputOf(step.body) >= 0
    ensures b.evidence.outputTokens == a.evidence.outputTokens + OutputOf(step.body) && OutputOf(step.body) >= 0
    ensures b.evidence.pilotCalls == a.evidence.pilotCalls + (if IsUsage(d) then 1 else 0)
    ensures b.evidence.eventIds == a.evidence.eventIds + (if IsQuery(d) then {d.event.eventId} else {})
    ensures b.stage.Activated? <==> a.stage.Activated? || IsApproval(d)
  {
  }

  lemma EvidenceMove(p: Sys, step: Step, s: Sys)
    requires Moves(p, step, s)
    ensures var a, b, d := p.view.activation, s.view.activation, StoredFor(p, step);
            && b.evidence.inputTokens == a.evidence.inputTokens + InputOf(step.body) && InputOf(step.body) >= 0
            && b.evidence.outputTokens == a.evidence.outputTokens + OutputOf(step.body) && OutputOf(step.body) >= 0
            && b.evidence.pilotCalls == a.evidence.pilotCalls + (if IsUsage(d) then 1 else 0)
            && b.evidence.eventIds == a.evidence.eventIds + (if IsQuery(d) then {d.event.eventId} else {})
            && (b.stage.Activated? <==> a.stage.Activated? || IsApproval(d))
  {
    hide Moves, AdmitsActivation, ApplyActivation;
    ActivationMove(p, step, s);
    if step.body.ActivationEvent? {
      EvidenceApplied(p.view.dataSpaceId, p.view.activation, step, StoredFor(p, step), s.view.activation);
    }
  }

  /** The token counters are the sums over the usage events of the ledger, and the call counter is their number. */
  lemma {:induction false} TokensAreSums(s: Sys)
    requires Reachable(s)
    ensures s.view.activation.evidence.inputTokens == InputTokens(s.log)
    ensures s.view.activation.evidence.outputTokens == OutputTokens(s.log)
    ensures s.view.activation.evidence.pilotCalls == |Filter(s.log, IsUsage)|
    decreases |s.log|
  {
    hide Reachable, Moves, InputOf, OutputOf, IsUsage, IsQuery, IsApproval;
    if s.log == [] {
      AtStart(s);
    } else {
      var p, step := Before(s);
      TokensAreSums(p);
      EvidenceMove(p, step, s);
      FilterSnoc(p.log, StoredFor(p, step), IsUsage);
    }
  }

  /** The citable events are exactly the recorded history queries, and the service is activated exactly when
      an approval is recorded. */
  lemma {:induction false} QueriesAndApproval(s: Sys)
    requires Reachable(s)
    ensures forall id :: id in s.view.activation.evidence.eventIds <==> exists d :: d in s.log && IsQuery(d) && d.event.eventId == id
    ensures s.view.activation.stage.Activated? <==> exists d :: d in s.log && IsApproval(d)
    decreases |s.log|
  {
    hide Reachable, Moves, IsUsage, IsQuery, IsApproval, InputOf, OutputOf;
    if s.log == [] {
      AtStart(s);
    } else {
      var p, step := Before(s);
      QueriesAndApproval(p);
      EvidenceMove(p, step, s);
      LogGrows(p, step, s);
      var d := StoredFor(p, step);
      assert d in s.log;
    }
  }

  // ---- what an event needs before it

  /** Every citation of an accepted assessment names a history query recorded before the assessment. */
  lemma CitationsNameEarlierQueries(s: Sys, i: nat, c: Citation)
    requires Reachable(s) && i < |s.log|
    requires s.log[i].event.body.ActivationEvent? && s.log[i].event.body.change.AssessmentAccepted?
    requires c in s.log[i].event.body.change.assessment.citations
    ensures exists j :: 0 <= j < i && IsQuery(s.log[j]) && s.log[j].event.eventId == c.evidence
  {
    hide Reachable, Moves, At, IsQuery, IsApproval;
    var step := EventAdmitted(s, i);
    ActivationMove(At(s, i), step, At(s, i + 1));
    PrefixReachable(s, i);
    QueriesAndApproval(At(s, i));
    var d :| d in s.log[..i] && IsQuery(d) && d.event.eventId == c.evidence;
    var j :| 0 <= j < i && s.log[..i][j] == d;
    assert s.log[j] == d;
  }

  /** Creating an execution and planning, approving or activating an effect need an activated service. */
  predicate NeedsActivation(b: EventBody) {
    b.ExecutionCreated? || b.EffectPlanned? || b.EffectApproved? || b.EffectActivated?
  }

  lemma NeedsActivationMove(p: Sys, step: Step, s: Sys)
    requires Moves(p, step, s) && NeedsActivation(step.body)
    ensures p.view.activation.stage.Activated?
  {
    hide Moves, ApplyAgents, ApplyEffects, ValidAgentMessage, NameRegistered;
    AgentMove(p, step, s);
    EffectMove(p, step, s);
  }

  /** Every such event comes after a recorded activation approval. */
  lemma WorkFollowsApproval(s: Sys, i: nat)
    requires Reachable(s) && i < |s.log| && NeedsActivation(s.log[i].event.body)
    ensures exists j :: 0 <= j < i && IsApproval(s.log[j])
  {
    hide Reachable, Moves, At, IsQuery, IsApproval, NeedsActivation;
    var step := EventAdmitted(s, i);
    assert step.body == s.log[i].event.body;
    NeedsActivationMove(At(s, i), step, At(s, i + 1));
    PrefixReachable(s, i);
    QueriesAndApproval(At(s, i));
    var d :| d in s.log[..i] && IsApproval(d);
    var j :| 0 <= j < i && s.log[..i][j] == d;
    assert s.log[j] == d;
  }
}
