/** The event envelope, the typed event bodies, and the views of an event list that the
    readers use: the events of one stream, and filters in general. */
module Events {
  import opened Models

  datatype ActorType = Human | KernelActor | Pilot | System

  /** Changes recorded on the activation stream. */
  datatype ActivationChange =
    | HistoryImportVerified(receipt: ImportReceipt, conversationId: Id)
    | ReorientationStarted
    | ReorientationRetryStarted(priorError: string)
    | ReorientationRevisionRetryStarted(revisionReason: RevisionReason)
    | ReorientationFailed(errorCode: string)
    | ReorientationInterrupted
    | SessionCheckpointed(providerSessionId: string)
    | HistoryQueryResolved(operation: HistoryOperation)
    | SessionIndexPageVerified(pageCursor: Option<string>)
    | UsageRecorded(inputTokens: int, outputTokens: int)
    | AssessmentAccepted(assessment: Assessment)
    | RevisionRequested(priorAssessmentId: Id, reason: RevisionReason)
    | ActivationApproved(assessmentId: Id, approvedAt: Time)

  datatype EventBody =
    | NodeRegistered(node: Node)
    | CapabilityGranted(capability: CapabilityGrant)
    | WorkItemCreated(workItem: WorkItem)
    | WorkDependencyAdded(edge: WorkEdge)
    | WorkGraphImported(graph: WorkGraph)
    | WorkItemDelegated(delegatedToNodeId: Id)
    | WorkItemResumePrepared
    | ExecutionCreated(execution: Execution)
    | NotificationDelivered(notification: Notification)
    | NotificationPromoted(notificationId: Id, promotedTo: Id)
    | AgentNameAssigned(assignment: Assignment)
    | AgentIdentityRegistered(registration: Registration)
    | ExecutionStateChanged(executionState: ExecutionState, pauseReason: Option<string>)
    | ReceiptRecorded(record: ReceiptRecord)
    | BudgetReserved(reservation: BudgetReservation)
    | EffectPlanned(lease: EffectLease)
    | EffectApproved(approval: EffectApproval)
    | EffectActivated(leaseState: LeaseState)
    | EffectResultUnknown(leaseState: LeaseState, effectKey: string)
    | EffectReconciled(leaseState: LeaseState, effectKey: string)
    | HumanIntervention(note: string)
    | FindingRecorded(finding: Finding)
    | RiskAccepted(findingId: Id, s5NodeId: Id, note: string)
    | WorkItemCompleted(evidence: CompletionEvidence)
    | PilotHostDisconnected(pilotHostId: Id)
    | ReferenceGranted(reference: ReferenceGrant)
    | RouteRegistered(route: RouteSnapshot)
    | RouteSnapshotApproved(routeApproval: RouteApproval, routeState: RouteState)
    | RoutePublished
    | RouteRetired(retirement: RetirementReason, replacement: Option<Id>)
    | ActivationEvent(change: ActivationChange)

  /** The event type names of the ledger. */
  function EventType(b: EventBody): string {
    match b
    case NodeRegistered(_) => "node_registered"
    case CapabilityGranted(_) => "capability_granted"
    case WorkItemCreated(_) => "work_item_created"
    case WorkDependencyAdded(_) => "work_dependency_added"
    case WorkGraphImported(_) => "current_work_graph_imported"
    case WorkItemDelegated(_) => "work_item_delegated"
    case WorkItemResumePrepared => "work_item_resume_prepared"
    case ExecutionCreated(_) => "execution_created"
    case NotificationDelivered(_) => "agent_notification_delivered"
    case NotificationPromoted(_, _) => "agent_notification_promoted"
    case AgentNameAssigned(_) => "agent_name_assigned"
    case AgentIdentityRegistered(_) => "agent_identity_registered"
    case ExecutionStateChanged(_, _) => "execution_state_changed"
    case ReceiptRecorded(_) => "pilot_execution_receipt_recorded"
    case BudgetReserved(_) => "budget_reserved"
    case EffectPlanned(_) => "effect_planned"
    case EffectApproved(_) => "effect_approved"
    case EffectActivated(_) => "effect_activated"
    case EffectResultUnknown(_, _) => "effect_result_unknown"
    case EffectReconciled(_, _) => "effect_reconciled"
    case HumanIntervention(_) => "human_intervention"
    case FindingRecorded(_) => "s3_star_finding_recorded"
    case RiskAccepted(_, _, _) => "s3_star_risk_accepted"
    case WorkItemCompleted(_) => "work_item_completed"
    case PilotHostDisconnected(_) => "pilot_host_disconnected"
    case ReferenceGranted(_) => "reference_granted"
    case RouteRegistered(_) => "route_snapshot_registered"
    case RouteSnapshotApproved(_, _) => "route_snapshot_approved"
    case RoutePublished => "route_snapshot_published"
    case RouteRetired(_, _) => "route_snapshot_retired"
    case ActivationEvent(HistoryImportVerified(_, _)) => "history_import_verified"
    case ActivationEvent(ReorientationStarted) => "reorientation_started"
    case ActivationEvent(ReorientationRetryStarted(_)) => "reorientation_retry_started"
    case ActivationEvent(ReorientationRevisionRetryStarted(_)) => "reorientation_revision_retry_started"
    case ActivationEvent(ReorientationFailed(_)) => "reorientation_failed"
    case ActivationEvent(ReorientationInterrupted) => "reorientation_attempt_interrupted"
    case ActivationEvent(SessionCheckpointed(_)) => "reorientation_session_checkpointed"
    case ActivationEvent(HistoryQueryResolved(_)) => "history_query_resolved"
    case ActivationEvent(SessionIndexPageVerified(_)) => "history_session_index_page_verified"
    case ActivationEvent(UsageRecorded(_, _)) => "reorientation_pilot_usage_recorded"
    case ActivationEvent(AssessmentAccepted(_)) => "reorientation_assessment_accepted"
    case ActivationEvent(RevisionRequested(_, _)) => "reorientation_assessment_revision_requested"
    case ActivationEvent(ActivationApproved(_, _)) => "activation_approved"
  }

  datatype Event = Event(
    eventId: EventId, dataSpaceId: Id, streamId: Id, streamVersion: nat, occurredAt: Time,
    actorType: ActorType, actorId: Option<Id>, correlationId: Option<Id>, causationId: Option<Id>,
    idempotencyKey: string, body: EventBody)

  datatype StoredEvent = StoredEvent(cursor: nat, event: Event)

  /** The members of `xs` that satisfy `keep`, in order. */
  function Filter<T>(xs: seq<T>, keep: T -> bool): (r: seq<T>)
    ensures |r| <= |xs|
  {
    if xs == [] then []
    else
      var front := Filter(xs[..|xs| - 1], keep);
      if keep(xs[|xs| - 1]) then front + [xs[|xs| - 1]] else front
  }

  function OnStream(streamId: Id): StoredEvent -> bool {
    (s: StoredEvent) => s.event.streamId == streamId
  }

  /** The events of one stream, in ledger order. */
  function StreamEvents(log: seq<StoredEvent>, streamId: Id): seq<StoredEvent> {
    Filter(log, OnStream(streamId))
  }

  function StreamLength(log: seq<StoredEvent>, streamId: Id): nat {
    |StreamEvents(log, streamId)|
  }

  /** Filtering a longer list only looks at the new last element. */
  lemma FilterSnoc<T>(xs: seq<T>, x: T, keep: T -> bool)
    ensures Filter(xs + [x], keep) == if keep(x) then Filter(xs, keep) + [x] else Filter(xs, keep)
  {
    assert (xs + [x])[..|xs|] == xs;
  }

  /** Filtering distributes over concatenation. */
  lemma {:induction false} FilterConcat<T>(xs: seq<T>, ys: seq<T>, keep: T -> bool)
    ensures Filter(xs + ys, keep) == Filter(xs, keep) + Filter(ys, keep)
  {
    if ys == [] {
      assert xs + ys == xs;
    } else {
      var front := ys[..|ys| - 1];
      assert (xs + ys)[..|xs + ys| - 1] == xs + front;
      FilterConcat(xs, front, keep);
    }
  }

  /** The filter keeps exactly the satisfying members. */
  lemma {:induction false} FilterMembers<T(!new)>(xs: seq<T>, keep: T -> bool)
    ensures forall x :: x in Filter(xs, keep) <==> x in xs && keep(x)
  {
    if xs != [] {
      FilterMembers(xs[..|xs| - 1], keep);
      assert xs == xs[..|xs| - 1] + [xs[|xs| - 1]];
    }
  }

  /** Reading an index first loses nothing when every wanted event lies in it. */
  lemma {:induction false} FilterWithin<T(!new)>(xs: seq<T>, index: T -> bool, wanted: T -> bool)
    requires forall x :: x in xs && wanted(x) ==> index(x)
    ensures Filter(Filter(xs, index), wanted) == Filter(xs, wanted)
  {
    if xs != [] {
      var front, last := xs[..|xs| - 1], xs[|xs| - 1];
      assert forall x :: x in front ==> x in xs;
      FilterWithin(front, index, wanted);
      if index(last) {
        FilterSnoc(Filter(front, index), last, wanted);
      }
    }
  }

  /** Two tests that agree on the members select the same list. */
  lemma {:induction false} FilterAgree<T(!new)>(xs: seq<T>, p: T -> bool, q: T -> bool)
    requires forall x :: x in xs ==> p(x) == q(x)
    ensures Filter(xs, p) == Filter(xs, q)
  {
    if xs != [] {
      assert forall x :: x in xs[..|xs| - 1] ==> x in xs;
      FilterAgree(xs[..|xs| - 1], p, q);
      assert xs[|xs| - 1] in xs;
    }
  }
}
