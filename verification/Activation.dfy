/** The activation service: it updates its own fields in place after each append. Every
    method moves the fields to the value the projection derives from the recorded event. */
module Activation {
  import opened Models
  import opened Events
  import opened Ledger
  import opened Views
  import opened Commands
  import opened Consistency

  /** The step of an activation command. */
  function Change(c: Caller, streamId: Id, change: ActivationChange, actorType: ActorType, context: Context): Step {
    StepBy(c, streamId, ActivationEvent(change), actorType, context)
  }

  /** A command answered `ok` exactly when it was accepted; then its event is the new last one and the
      view is what the handler makes of it. A rejected command changes nothing. */
  ghost predicate Done(ok: bool, dataSpaceId: Id, a: ActivationView, log: seq<StoredEvent>, step: Step,
      next: ActivationView, nextLog: seq<StoredEvent>)
    requires step.body.ActivationEvent?
  {
    && ok == ActivationAccepted(dataSpaceId, a, log, step)
    && if ok then
         && nextLog == log + [ActivationStored(dataSpaceId, a, log, step)]
         && ApplyActivation(a, ActivationStored(dataSpaceId, a, log, step)) == Ok(next)
       else next == a && nextLog == log
  }

  lemma StreamOfActivation(dataSpaceId: Id, a: ActivationView, step: Step)
    requires step.body.ActivationEvent? && AdmitsActivation(dataSpaceId, a, step)
    ensures step.streamId == a.streamId
  {
  }

  lemma DoneStaysValid(ok: bool, dataSpaceId: Id, a: ActivationView, log: seq<StoredEvent>, step: Step,
      next: ActivationView, nextLog: seq<StoredEvent>)
    requires step.body.ActivationEvent? && Done(ok, dataSpaceId, a, log, step, next, nextLog)
    requires ActivationConsistent(a) && ActivationAuthored(a, log)
    ensures ActivationConsistent(next) && ActivationAuthored(next, nextLog)
  {
    hide AdmitsActivation, ApplyActivation, ActivationConsistent, OutcomeOf;
    if ok {
      ActivationStep(dataSpaceId, a, step, ActivationStored(dataSpaceId, a, log, step));
      assert step.streamId == a.streamId by { StreamOfActivation(dataSpaceId, a, step); }
    }
  }

  /** The kind of attempt that a start opens: a first one, a retry after an error, or one after a revision request. */
  function NextAttempt(stage: Stage, last: AttemptView): ActivationChange {
    if stage.ReorientationOnly? && last.error.Some? then ReorientationRetryStarted(last.error.value)
    else if stage.ReorientationOnly? && last.pendingRevision.Some? then ReorientationRevisionRetryStarted(last.pendingRevision.value)
    else ReorientationStarted
  }

  function PriorAssessment(a: Option<Assessment>): Id {
    if a.Some? then a.value.assessmentId else ""
  }

  /** Before the first attempt none of the attempt flags is set. */
  lemma FlagsClear(a: ActivationView)
    requires ActivationConsistent(a) && a.stage.Uncommissioned?
    ensures !a.attempt.inProgress && a.attempt.startedVersion.None? && a.attempt.pendingRevision.None?
  {
  }

  class ActivationService {
    const dataSpaceId: Id
    const streamId: Id
    const ledger: InMemoryLedger
    var version: nat
    var stage: Stage
    var history: ImportView
    var attempt: AttemptView
    var evidence: EvidenceView
    var assessment: Option<Assessment>
    var approvedAt: Option<Time>
    var workGraphSnapshotId: Option<Id>
    var providerSessionId: Option<string>

    ghost function View(): ActivationView
      reads this
    {
      ActivationView(streamId, version, stage, history, attempt, evidence, assessment, approvedAt, workGraphSnapshotId, providerSessionId)
    }

    ghost predicate Valid()
      reads this, ledger
    {
      && ledger.Valid() && ledger.dataSpaceId == dataSpaceId
      && ActivationConsistent(View()) && ActivationAuthored(View(), ledger.events)
    }

    constructor (dataSpaceId: Id, streamId: Id, ledger: InMemoryLedger)
      ensures this.dataSpaceId == dataSpaceId && this.streamId == streamId && this.ledger == ledger
      ensures View() == NewActivation(streamId)
    {
      this.dataSpaceId, this.streamId, this.ledger := dataSpaceId, streamId, ledger;
      version, stage := 0, Uncommissioned;
      history, attempt := ImportView(None, map[], 0, None), AttemptView(None, false, None, None);
      evidence := EvidenceView({}, {}, 0, 0, 0);
      assessment, approvedAt, workGraphSnapshotId, providerSessionId := None, None, None, None;
    }

    /** Appends the event of an admitted command and moves the version. */
    method Record(step: Step) returns (r: Result<StoredEvent>)
      requires Valid() && step.body.ActivationEvent? && AdmitsActivation(dataSpaceId, View(), step)
      modifies ledger, `version
      ensures ledger.Valid()
      ensures r.Ok? <==> ActivationAccepted(dataSpaceId, old(View()), old(ledger.events), step)
      ensures r.Ok? ==> r.value == ActivationStored(dataSpaceId, old(View()), old(ledger.events), step)
                        && ledger.events == old(ledger.events) + [r.value] && version == old(version) + 1
      ensures r.Err? ==> ledger.events == old(ledger.events) && version == old(version)
    {
      hide AdmitsActivation, ActivationConsistent, Indexed, OutcomeOf;
      var e := Envelope(dataSpaceId, step, version, Some(step.streamId));
      assert forall d :: d in ledger.events ==> d.event != e;
      NotDuplicate(dataSpaceId, ledger.events, e, version);
      var outcome := ledger.Append(e, version);
      match outcome
      case Appended(cursor, streamVersion) =>
        version := streamVersion;
        return Ok(StoredEvent(cursor, e));
      case Refused(f) => return Err(f);
    }

    /** A repeated registration of the stored receipt is answered `ok` without an event. */
    method RegisterHistoryImport(receipt: ImportReceipt, conversation: Id, c: Caller) returns (ok: bool)
      requires Valid()
      modifies this, ledger
      ensures Valid()
      ensures var step := Change(c, streamId, HistoryImportVerified(receipt, conversation), Human, NoContext);
              var repeated := ValidImportReceipt(receipt) && !old(stage).Uncommissioned? && old(history.receipt) == Some(receipt);
              Done(ok && !repeated, dataSpaceId, old(View()), old(ledger.events), step, View(), ledger.events)
              && (repeated ==> ok)
      ensures ok && old(stage).Uncommissioned? ==>
                View() == old(View()).(version := old(version) + 1, stage := HistoryImported,
                  history := ImportView(Some(receipt), SessionsByRef(receipt.sessions), |ledger.events|, Some(conversation)))
    {
      hide ActivationConsistent, ActivationAuthored, Indexed, OutcomeOf;
      var step := Change(c, streamId, HistoryImportVerified(receipt, conversation), Human, NoContext);
      ghost var before, log := View(), ledger.events;
      if !ValidImportReceipt(receipt) {
        return false;
      }
      if !stage.Uncommissioned? {
        return history.receipt == Some(receipt);
      }
      if workGraphSnapshotId.None? || conversation == "" || receipt.dataSpaceId != dataSpaceId {
        return false;
      }
      var r := Record(step);
      if r.Err? {
        return false;
      }
      // leaves the attempt flags alone: they are already clear before the first attempt
      history := ImportView(Some(receipt), SessionsByRef(receipt.sessions), r.value.cursor, Some(conversation));
      stage := HistoryImported;
      FlagsClear(before);
      DoneStaysValid(true, dataSpaceId, before, log, step, View(), ledger.events);
      return true;
    }

    method StartReorientation(c: Caller) returns (ok: bool)
      requires Valid()
      modifies this, ledger
      ensures Valid()
      ensures Done(ok, dataSpaceId, old(View()), old(ledger.events), Change(c, streamId, NextAttempt(old(stage), old(attempt)), Pilot, NoContext), View(), ledger.events)
      ensures ok ==> View() == old(View()).(version := old(version) + 1, stage := ReorientationOnly,
                       attempt := AttemptView(None, true, Some(old(version) + 1), None))
      ensures ok ==> |ledger.events| == |old(ledger.events)| + 1
                     && ledger.events[|old(ledger.events)|].event.body == ActivationEvent(
                          if old(stage).HistoryImported? then ReorientationStarted
                          else if old(attempt.error).Some? then ReorientationRetryStarted(old(attempt.error).value)
                          else if old(attempt.pendingRevision).Some? then ReorientationRevisionRetryStarted(old(attempt.pendingRevision).value)
                          else ReorientationStarted)
    {
      hide ActivationConsistent, ActivationAuthored, Indexed, OutcomeOf;
      var step := Change(c, streamId, NextAttempt(stage, attempt), Pilot, NoContext);
      ghost var before, log := View(), ledger.events;
      if attempt.inProgress || !(stage.HistoryImported? || (stage.ReorientationOnly? && (attempt.error.Some? || attempt.pendingRevision.Some?))) {
        return false;
      }
      var r := Record(step);
      if r.Err? {
        return false;
      }
      stage := ReorientationOnly;
      attempt := AttemptView(None, true, Some(r.value.event.streamVersion), None);
      DoneStaysValid(true, dataSpaceId, before, log, step, View(), ledger.events);
      return true;
    }

    method RecordFailure(code: string, c: Caller) returns (ok: bool)
      requires Valid()
      modifies this, ledger
      ensures Valid()
      ensures Done(ok, dataSpaceId, old(View()), old(ledger.events), Change(c, streamId, ReorientationFailed(code), System, NoContext), View(), ledger.events)
      ensures ok ==> View() == old(View()).(version := old(version) + 1, attempt := AttemptView(Some(code), false, None, None))
    {
      hide ActivationConsistent, ActivationAuthored, Indexed, OutcomeOf;
      var step := Change(c, streamId, ReorientationFailed(code), System, NoContext);
      ghost var before, log := View(), ledger.events;
      if !stage.ReorientationOnly? || !attempt.inProgress {
        return false;
      }
      var r := Record(step);
      if r.Err? {
        return false;
      }
      attempt := attempt.(error := Some(code), inProgress := false, startedVersion := None, pendingRevision := None);
      DoneStaysValid(true, dataSpaceId, before, log, step, View(), ledger.events);
      return true;
    }

    method InterruptAttempt(c: Caller) returns (ok: bool)
      requires Valid()
      modifies this, ledger
      ensures Valid()
      ensures Done(ok, dataSpaceId, old(View()), old(ledger.events), Change(c, streamId, ReorientationInterrupted, System, NoContext), View(), ledger.events)
      ensures ok ==> View() == old(View()).(version := old(version) + 1,
                       attempt := AttemptView(Some("process_restart_interrupted_attempt"), false, None, None))
    {
      hide ActivationConsistent, ActivationAuthored, Indexed, OutcomeOf;
      var step := Change(c, streamId, ReorientationInterrupted, System, NoContext);
      ghost var before, log := View(), ledger.events;
      if !stage.ReorientationOnly? || !attempt.inProgress {
        return false;
      }
      var r := Record(step);
      if r.Err? {
        return false;
      }
      attempt := attempt.(error := Some(INTERRUPTED), inProgress := false, startedVersion := None, pendingRevision := None);
      DoneStaysValid(true, dataSpaceId, before, log, step, View(), ledger.events);
      return true;
    }

    method CheckpointSession(session: string, c: Caller) returns (ok: bool)
      requires Valid()
      modifies this, ledger
      ensures Valid()
      ensures Done(ok, dataSpaceId, old(View()), old(ledger.events), Change(c, streamId, SessionCheckpointed(session), Pilot, NoContext), View(), ledger.events)
      ensures ok ==> View() == old(View()).(version := old(version) + 1, providerSessionId := Some(session))
    {
      hide ActivationConsistent, ActivationAuthored, Indexed, OutcomeOf;
      var step := Change(c, streamId, SessionCheckpointed(session), Pilot, NoContext);
      ghost var before, log := View(), ledger.events;
      if !stage.ReorientationOnly? || !attempt.inProgress || session == "" {
        return false;
      }
      var r := Record(step);
      if r.Err? {
        return false;
      }
      providerSessionId := Some(session);
      DoneStaysValid(true, dataSpaceId, before, log, step, View(), ledger.events);
      return true;
    }

    method ResolveHistoryQuery(operation: HistoryOperation, c: Caller) returns (ok: bool)
      requires Valid()
      modifies this, ledger
      ensures Valid()
      ensures Done(ok, dataSpaceId, old(View()), old(ledger.events), Change(c, streamId, HistoryQueryResolved(operation), Pilot, NoContext), View(), ledger.events)
      ensures ok ==> View() == old(View()).(version := old(version) + 1, evidence := old(evidence).(
                       operations := old(evidence).operations + {operation},
                       eventIds := old(evidence).eventIds + {EventId(dataSpaceId, streamId, c.key)}))
    {
      hide ActivationConsistent, ActivationAuthored, Indexed, OutcomeOf;
      var step := Change(c, streamId, HistoryQueryResolved(operation), Pilot, NoContext);
      ghost var before, log := View(), ledger.events;
      if !stage.ReorientationOnly? || operation.ListSessions? {
        return false;
      }
      var r := Record(step);
      if r.Err? {
        return false;
      }
      evidence := evidence.(operations := evidence.operations + {operation}, eventIds := evidence.eventIds + {r.value.event.eventId});
      DoneStaysValid(true, dataSpaceId, before, log, step, View(), ledger.events);
      return true;
    }

    method VerifyIndexPage(pageCursor: Option<string>, c: Caller) returns (ok: bool)
      requires Valid()
      modifies this, ledger
      ensures Valid()
      ensures Done(ok, dataSpaceId, old(View()), old(ledger.events), Change(c, streamId, SessionIndexPageVerified(pageCursor), System, NoContext), View(), ledger.events)
      ensures ok ==> View() == old(View()).(version := old(version) + 1)
    {
      hide ActivationConsistent, ActivationAuthored, Indexed, OutcomeOf;
      var step := Change(c, streamId, SessionIndexPageVerified(pageCursor), System, NoContext);
      ghost var before, log := View(), ledger.events;
      var r := Record(step);
      if r.Err? {
        return false;
      }
      DoneStaysValid(true, dataSpaceId, before, log, step, View(), ledger.events);
      return true;
    }

    method RecordUsage(input: int, output: int, c: Caller) returns (ok: bool)
      requires Valid()
      modifies this, ledger
      ensures Valid()
      ensures Done(ok, dataSpaceId, old(View()), old(ledger.events), Change(c, streamId, UsageRecorded(input, output), Pilot, NoContext), View(), ledger.events)
      ensures ok ==> View() == old(View()).(version := old(version) + 1, evidence := old(evidence).(
                       pilotCalls := old(evidence).pilotCalls + 1, inputTokens := old(evidence).inputTokens + input,
                       outputTokens := old(evidence).outputTokens + output))
    {
      hide ActivationConsistent, ActivationAuthored, Indexed, OutcomeOf;
      var step := Change(c, streamId, UsageRecorded(input, output), Pilot, NoContext);
      ghost var before, log := View(), ledger.events;
      if input < 0 || output < 0 || !stage.ReorientationOnly? || !attempt.inProgress {
        return false;
      }
      var r := Record(step);
      if r.Err? {
        return false;
      }
      evidence := evidence.(pilotCalls := evidence.pilotCalls + 1, inputTokens := evidence.inputTokens + input,
                            outputTokens := evidence.outputTokens + output);
      DoneStaysValid(true, dataSpaceId, before, log, step, View(), ledger.events);
      return true;
    }

    /** The checks of a submitted assessment, in order. */
    method AssessmentChecks(x: Assessment, openCommitments: set<Id>, existing: set<Id>, listedToEnd: bool) returns (ok: bool)
      ensures ok == AssessmentAcceptable(View(), x, AssessmentContext(openCommitments, existing, listedToEnd))
    {
      hide ClaimsCited;
      if !stage.ReorientationOnly? || !attempt.inProgress {
        return false;
      }
      if history.receipt.None? || x.importId != history.receipt.value.inventoryId || history.conversationId != Some(x.conversationId) {
        return false;
      }
      if x.coveredIndexRef != history.receipt.value.sessionIndexRef || x.coveredSessionCount != history.receipt.value.sessionCount || !listedToEnd {
        return false;
      }
      if (set id | id in x.openCommitmentIds) != openCommitments {
        return false;
      }
      if (existing != {} && x.resumeWorkItemIds == []) || exists id :: id in x.resumeWorkItemIds && id !in existing {
        return false;
      }
      if x.historyCursor < history.cursor || x.currentStateCursor < x.historyCursor || GetCurrentState !in evidence.operations {
        return false;
      }
      if !ClaimsCited(x) || exists i :: 0 <= i < |x.citations| && x.citations[i].evidence !in evidence.eventIds {
        return false;
      }
      return true;
    }

    method SubmitAssessment(x: Assessment, openCommitments: set<Id>, existing: set<Id>, listedToEnd: bool, c: Caller) returns (ok: bool)
      requires Valid()
      modifies this, ledger
      ensures Valid()
      ensures Done(ok, dataSpaceId, old(View()), old(ledger.events), Change(c, streamId, AssessmentAccepted(x), Pilot, AssessmentContext(openCommitments, existing, listedToEnd)), View(), ledger.events)
      ensures ok ==> View() == old(View()).(version := old(version) + 1, stage := AwaitingOwner, assessment := Some(x),
                       attempt := AttemptView(old(attempt).error, false, None, None))
    {
      hide ActivationConsistent, ActivationAuthored, Indexed, OutcomeOf, AssessmentAcceptable;
      var step := Change(c, streamId, AssessmentAccepted(x), Pilot, AssessmentContext(openCommitments, existing, listedToEnd));
      ghost var before, log := View(), ledger.events;
      var acceptable := AssessmentChecks(x, openCommitments, existing, listedToEnd);
      if !acceptable {
        return false;
      }
      var r := Record(step);
      if r.Err? {
        return false;
      }
      assessment := Some(x);
      stage := AwaitingOwner;
      attempt := attempt.(inProgress := false, startedVersion := None, pendingRevision := None);
      DoneStaysValid(true, dataSpaceId, before, log, step, View(), ledger.events);
      return true;
    }

    method RequestRevision(reason: RevisionReason, byOwner: bool, c: Caller) returns (ok: bool)
      requires Valid()
      modifies this, ledger
      ensures Valid()
      ensures Done(ok, dataSpaceId, old(View()), old(ledger.events), Change(c, streamId, RevisionRequested(PriorAssessment(old(assessment)), reason), (if byOwner then Human else System), NoContext), View(), ledger.events)
      ensures ok ==> View() == old(View()).(version := old(version) + 1, stage := ReorientationOnly, assessment := None,
                       attempt := AttemptView(None, false, None, Some(reason)))
      ensures ok ==> old(assessment).Some? && |ledger.events| == |old(ledger.events)| + 1
                     && ledger.events[|old(ledger.events)|].event.body == ActivationEvent(RevisionRequested(old(assessment).value.assessmentId, reason))
    {
      hide ActivationConsistent, ActivationAuthored, Indexed, OutcomeOf;
      var step := Change(c, streamId, RevisionRequested(PriorAssessment(assessment), reason), (if byOwner then Human else System), NoContext);
      ghost var before, log := View(), ledger.events;
      if !stage.AwaitingOwner? || assessment.None? {
        return false;
      }
      var r := Record(step);
      if r.Err? {
        return false;
      }
      assessment := None;
      attempt := AttemptView(None, false, None, Some(reason));
      stage := ReorientationOnly;
      DoneStaysValid(true, dataSpaceId, before, log, step, View(), ledger.events);
      return true;
    }

    method Approve(assessmentId: Id, c: Caller) returns (ok: bool)
      requires Valid()
      modifies this, ledger
      ensures Valid()
      ensures Done(ok, dataSpaceId, old(View()), old(ledger.events), Change(c, streamId, ActivationApproved(assessmentId, c.now), Human, NoContext), View(), ledger.events)
      ensures ok ==> View() == old(View()).(version := old(version) + 1, stage := Activated, approvedAt := Some(c.now))
    {
      hide ActivationConsistent, ActivationAuthored, Indexed, OutcomeOf;
      var step := Change(c, streamId, ActivationApproved(assessmentId, c.now), Human, NoContext);
      ghost var before, log := View(), ledger.events;
      if !stage.AwaitingOwner? || assessment.None? || assessment.value.assessmentId != assessmentId {
        return false;
      }
      var r := Record(step);
      if r.Err? {
        return false;
      }
      approvedAt := Some(c.now);
      stage := Activated;
      DoneStaysValid(true, dataSpaceId, before, log, step, View(), ledger.events);
      return true;
    }
  }
}
