/** The commands of the Kernel and of the activation service as transitions: when a command
    is admitted, which event it records, and the state it moves to. A command first appends
    its event with the expected stream version; a refused append changes nothing. */
module Commands {
  import opened Models
  import opened Events
  import opened Ledger
  import opened Views
  import Graph

  /** Answers of collaborators that a command consults but does not record. */
  datatype Context =
    | NoContext
    | IssuedName(issuedName: Option<Assignment>)
    | IssuedIdentity(issuedIdentity: Option<Registration>)
    | AssessmentContext(openCommitments: set<Id>, existingWorkItems: set<Id>, indexListedToEnd: bool)

  /** One command: the event it wants to record, who asks, the idempotency key, and the clock
      as read by the checks (`now`) and by the recorder (`recordedAt`). */
  datatype Step = Step(
    streamId: Id, body: EventBody, actorType: ActorType, actorId: Option<Id>, key: string,
    now: Time, recordedAt: Time, context: Context)

  /** The caller of a command, its idempotency key, and the two clock readings. */
  datatype Caller = Caller(actorId: Id, key: string, now: Time, recordedAt: Time)

  function StepBy(c: Caller, streamId: Id, body: EventBody, actorType: ActorType, context: Context): Step {
    Step(streamId, body, actorType, Some(c.actorId), c.key, c.now, c.recordedAt, context)
  }

  datatype Sys = Sys(view: View, log: seq<StoredEvent>)

  // ---- guards of the activation service

  predicate AttemptRunning(a: ActivationView) {
    a.stage.ReorientationOnly? && a.attempt.inProgress
  }

  /** Every claim of the assessment is cited. */
  predicate ClaimsCited(x: Assessment) {
    && (exists i :: 0 <= i < |x.citations| && x.citations[i].claim == Understanding)
    && (forall m :: 0 <= m < x.missionCount ==> exists i :: 0 <= i < |x.citations| && x.citations[i].claim == ActiveMission(m))
    && (forall d :: 0 <= d < x.decisionCount ==> exists i :: 0 <= i < |x.citations| && x.citations[i].claim == DecisionOrConstraint(d))
  }

  predicate AssessmentAcceptable(a: ActivationView, x: Assessment, c: Context) {
    && AttemptRunning(a)
    && a.history.receipt.Some? && x.importId == a.history.receipt.value.inventoryId
    && a.history.conversationId == Some(x.conversationId)
    && x.coveredIndexRef == a.history.receipt.value.sessionIndexRef
    && x.coveredSessionCount == a.history.receipt.value.sessionCount
    && c.AssessmentContext? && c.indexListedToEnd
    && (set id | id in x.openCommitmentIds) == c.openCommitments
    && (c.existingWorkItems != {} ==> x.resumeWorkItemIds != [])
    && (forall id :: id in x.resumeWorkItemIds ==> id in c.existingWorkItems)
    && a.history.cursor <= x.historyCursor <= x.currentStateCursor
    && GetCurrentState in a.evidence.operations
    && ClaimsCited(x)
    && (forall i :: 0 <= i < |x.citations| ==> x.citations[i].evidence in a.evidence.eventIds)
  }

  predicate AdmitsActivation(dataSpaceId: Id, a: ActivationView, s: Step)
    requires s.body.ActivationEvent?
  {
    && s.streamId == a.streamId && s.actorId.Some?
    && match s.body.change
       case HistoryImportVerified(r, conversationId) =>
         && s.actorType.Human? && ValidImportReceipt(r) && a.stage.Uncommissioned? && a.workGraphSnapshotId.Some?
         && conversationId != "" && r.dataSpaceId == dataSpaceId
       case ReorientationStarted =>
         s.actorType.Pilot? && !a.attempt.inProgress && a.stage.HistoryImported?
       case ReorientationRetryStarted(prior) =>
         s.actorType.Pilot? && !a.attempt.inProgress && a.stage.ReorientationOnly? && a.attempt.error == Some(prior)
       case ReorientationRevisionRetryStarted(reason) =>
         && s.actorType.Pilot? && !a.attempt.inProgress && a.stage.ReorientationOnly? && a.attempt.error.None?
         && a.attempt.pendingRevision == Some(reason)
       case ReorientationFailed(_) => s.actorType.System? && AttemptRunning(a)
       case ReorientationInterrupted => s.actorType.System? && AttemptRunning(a)
       case SessionCheckpointed(session) => s.actorType.Pilot? && AttemptRunning(a) && session != ""
       case HistoryQueryResolved(operation) =>
         s.actorType.Pilot? && a.stage.ReorientationOnly? && operation != ListSessions
       case SessionIndexPageVerified(_) => s.actorType.System?
       case UsageRecorded(i, o) => s.actorType.Pilot? && i >= 0 && o >= 0 && AttemptRunning(a)
       case AssessmentAccepted(x) => s.actorType.Pilot? && AssessmentAcceptable(a, x, s.context)
       case RevisionRequested(prior, _) =>
         && (s.actorType.Human? || s.actorType.System?) && a.stage.AwaitingOwner?
         && a.assessment.Some? && a.assessment.value.assessmentId == prior
       case ActivationApproved(id, at) =>
         && s.actorType.Human? && a.stage.AwaitingOwner?
         && a.assessment.Some? && a.assessment.value.assessmentId == id && at == s.now
  }

  // ---- guards of the Kernel

  predicate WorkNodesKnown(w: WorkItem, nodes: map<Id, Node>) {
    w.ownerNodeId in nodes && w.delegatedToNodeId in nodes && w.integrationOwnerNodeId in nodes
  }

  /** A new work item: unblocked, uncompleted, with acceptance criteria, on known nodes, under a known parent. */
  predicate NewWorkOk(v: View, w: WorkItem) {
    && w.dataSpaceId == v.dataSpaceId && w.state in {Proposed, Ready}
    && w.evidence.None? && w.blockers == [] && w.acceptanceCriteria != []
    && WorkNodesKnown(w, v.work.nodes)
    && (w.parentWorkItemId.Some? ==>
          && w.parentWorkItemId.value in v.work.items
          && v.work.items[w.parentWorkItemId.value].integrationOwnerNodeId == w.integrationOwnerNodeId)
  }

  predicate EdgesWithin(edges: seq<WorkEdge>, items: set<Id>) {
    forall i :: 0 <= i < |edges| ==> edges[i].source in items && edges[i].target in items
  }

  /** The nodes belong to the data space and do not collide with known ones. */
  predicate ImportNodesOk(nodes: map<Id, Node>, dataSpaceId: Id, g: WorkGraph) {
    && (forall i :: 0 <= i < |g.nodes| ==> g.nodes[i].dataSpaceId == dataSpaceId)
    && (forall i :: 0 <= i < |g.nodes| && g.nodes[i].nodeId in nodes ==> nodes[g.nodes[i].nodeId] == g.nodes[i])
  }

  /** The items are new, belong to the data space, and name known nodes and imported parents. */
  predicate ImportItemsOk(w: WorkView, dataSpaceId: Id, g: WorkGraph) {
    forall i :: 0 <= i < |g.workItems| ==>
      && g.workItems[i].workItemId !in w.items
      && g.workItems[i].dataSpaceId == dataSpaceId
      && WorkNodesKnown(g.workItems[i], NodesById(g.nodes) + w.nodes)
      && (g.workItems[i].parentWorkItemId.Some? ==> g.workItems[i].parentWorkItemId.value in WorkItemsById(g.workItems))
  }

  /** The graph may be imported: once, while uncommissioned, without collisions or dangling references. */
  predicate ImportOk(v: View, g: WorkGraph) {
    && ValidWorkGraph(g)
    && v.activation.workGraphSnapshotId.None? && v.activation.stage.Uncommissioned?
    && g.dataSpaceId == v.dataSpaceId && g.digest == DigestOf(g)
    && ImportNodesOk(v.work.nodes, v.dataSpaceId, g) && ImportItemsOk(v.work, v.dataSpaceId, g)
    && EdgesWithin(g.edges, WorkItemsById(g.workItems).Keys)
  }

  /** Dependencies of an item that are not completed. */
  predicate DependenciesCompleted(v: View, id: Id) {
    forall i :: 0 <= i < |v.work.edges| && v.work.edges[i].source == id && v.work.edges[i].kind.DependsOn? ==>
      v.work.edges[i].target in v.work.items && v.work.items[v.work.edges[i].target].state.Completed?
  }

  ghost predicate AdmitsWork(v: View, s: Step) {
    match s.body
    case NodeRegistered(n) =>
      && s.actorType.Human? && s.streamId == n.nodeId && ValidNode(n)
      && n.dataSpaceId == v.dataSpaceId && n.nodeId !in v.work.nodes
      && (n.parentNodeId.Some? ==> n.parentNodeId.value in v.work.nodes && v.work.nodes[n.parentNodeId.value].dataSpaceId == n.dataSpaceId)
    case WorkItemCreated(w) => s.actorType.Human? && s.streamId == w.workItemId && NewWorkOk(v, w)
    case WorkDependencyAdded(edge) =>
      && s.actorType.Human? && s.streamId == edge.source && edge.kind.DependsOn?
      && edge.source in v.work.items && edge.target in v.work.items && edge.source != edge.target
      && edge !in v.work.edges
      && !Graph.Reaches(Graph.Dependencies(v.work.edges), edge.target, edge.source)
    case WorkGraphImported(g) => s.actorType.Human? && s.streamId == g.snapshotId && ImportOk(v, g)
    case WorkItemDelegated(nodeId) =>
      && s.actorType.Human? && s.streamId in v.work.items && nodeId in v.work.nodes
      && v.work.items[s.streamId].state in {Proposed, Ready}
      && forall k :: k in v.agents.executions ==> v.agents.executions[k].workItemId != s.streamId
    case WorkItemResumePrepared => s.actorType.Human? && ResumeOk(v, s.streamId)
    case WorkItemCompleted(evidence) =>
      && s.actorType.Human? && s.streamId in v.work.items && v.work.items[s.streamId].blockers == []
      && GatesSatisfied(evidence) && DependenciesCompleted(v, s.streamId)
    case HumanIntervention(_) => s.actorType.Human? && s.streamId in v.work.items
    case FindingRecorded(f) =>
      && s.actorType.System? && s.streamId == f.workItemId
      && f.workItemId in v.work.items && f.nodeId in v.work.nodes && !f.acceptedByS5
    case RiskAccepted(findingId, s5NodeId, _) =>
      && s.actorType.Human? && findingId in v.work.findings && s5NodeId == v.work.findings[findingId].nodeId
      && s.streamId == v.work.findings[findingId].workItemId
    case _ => false
  }

  predicate ResumeOk(v: View, id: Id) {
    && v.activation.stage.AwaitingOwner?
    && v.activation.assessment.Some? && id in v.activation.assessment.value.resumeWorkItemIds
    && id in v.work.items && v.work.items[id].blockers == []
    && v.work.items[id].state in {Proposed, Ready, PausedWork}
    && v.work.items[id].delegatedToNodeId in v.work.nodes
  }

  /** The execution transitions a command may request. */
  predicate ExecutionMove(from: ExecutionState, to: ExecutionState) {
    match from
    case Requested => to in {ActiveExecution, PausedExecution, FailedExecution, CancelledExecution}
    case ActiveExecution => to in {PausedExecution, SucceededExecution, FailedExecution, CancelledExecution}
    case PausedExecution => to in {ActiveExecution, FailedExecution, CancelledExecution}
    case _ => false
  }

  predicate ReportOk(r: ReceiptReport) {
    match r.status
    case ReceiptSucceeded => r.actualModel.Some? && r.providerSessionId.Some? && r.usage.Some? && r.result.Some? && r.error.None?
    case ReceiptFailed => r.result.None? && r.error.Some?
    case TransportUnknown => r.result.None? && r.error.Some?
    case InProgress => false
  }

  function ReceiptState(status: ReceiptStatus): ExecutionState {
    match status
    case ReceiptSucceeded => SucceededExecution
    case ReceiptFailed => FailedExecution
    case _ => PausedExecution
  }

  /** The name assignment recorded for an execution. */
  ghost function AssignmentFor(assignments: map<Id, Assignment>, executionId: Id): (r: Option<Id>)
    ensures r.Some? ==> r.value in assignments && assignments[r.value].executionId == executionId
    ensures r.None? ==> forall k :: k in assignments ==> assignments[k].executionId != executionId
  {
    if k :| k in assignments && assignments[k].executionId == executionId then Some(k) else None
  }

  /** The receipt payload that the Kernel records for a report. */
  ghost function ReceiptFor(v: View, executionId: Id, report: ReceiptReport): ReceiptRecord
    requires executionId in v.agents.executions
  {
    ReceiptRecord(report, executionId, v.agents.executions[executionId].workItemId, AssignmentFor(v.agents.assignments, executionId),
                  ReceiptState(report.status), if report.status.TransportUnknown? then Some(RECONCILE) else None,
                  v.agents.executions[executionId].agentName)
  }

  ghost predicate AdmitsAgents(v: View, s: Step) {
    match s.body
    case ExecutionCreated(x) =>
      && s.actorType.Human? && s.streamId == x.executionId
      && v.activation.stage.Activated? && x.dataSpaceId == v.dataSpaceId && x.state in {Requested, ActiveExecution}
      && x.nodeId in v.work.nodes && x.workItemId in v.work.items && x.nodeId == v.work.items[x.workItemId].delegatedToNodeId
      && x.executionId !in v.agents.executions
    case ExecutionStateChanged(state, reason) =>
      && s.streamId in v.agents.executions && ExecutionMove(v.agents.executions[s.streamId].state, state)
      && (state.PausedExecution? ==> reason.Some? && reason.value != "")
    case ReceiptRecorded(r) =>
      && s.actorType.Pilot? && s.streamId in v.agents.executions && v.agents.executions[s.streamId].state.Requested?
      && ReportOk(r.report) && r == ReceiptFor(v, s.streamId, r.report)
    case PilotHostDisconnected(host) => s.actorType.System? && s.streamId == host
    case AgentNameAssigned(a) =>
      && s.actorType.System? && s.streamId == a.assignmentId
      && s.context == IssuedName(Some(a)) && a.dataSpaceId == v.dataSpaceId
      && a.assignmentId !in v.agents.assignments
      && (forall k :: k in v.agents.assignments ==> v.agents.assignments[k].agentName != a.agentName)
      && a.executionId in v.agents.executions
      && var x := v.agents.executions[a.executionId];
         x.workItemId == a.workItemId && x.nodeId == a.nodeId && x.pilotId == a.pilotId && x.agentName.None?
    case AgentIdentityRegistered(r) =>
      && s.actorType.System? && s.streamId == r.registrationId
      && s.context == IssuedIdentity(Some(r)) && r.dataSpaceId == v.dataSpaceId
      && r.registrationId !in v.agents.registrations && !NameRegistered(v.agents, r.agentName) && r.nodeId in v.work.nodes
    case NotificationDelivered(n) =>
      && s.actorType.System? && s.streamId == n.notificationId && ValidNotification(n)
      && n.dataSpaceId == v.dataSpaceId
      && (n.sourceKind.AgentToAgent? ==> ValidAgentMessage(v.work, v.agents, n))
      && n.notificationId !in v.agents.notifications
    // the second half of a promotion, after the work item itself was created
    case NotificationPromoted(id, target) =>
      && s.actorType.System? && s.streamId == id && id in v.agents.notifications
      && v.agents.notifications[id].requiresWorkItem && v.agents.notifications[id].promotedWorkItemId.None?
      && target != id && target in v.work.items
    case _ => false
  }

  predicate AdmitsEffects(v: View, s: Step) {
    match s.body
    case CapabilityGranted(g) =>
      && s.actorType.Human? && s.streamId == g.grantId && g.validFrom < g.expiresAt
      && g.dataSpaceId == v.dataSpaceId && g.state.GrantActive? && g.validFrom <= s.now < g.expiresAt
      && g.grantorNodeId in v.work.nodes && g.granteeNodeId in v.work.nodes
    case ReferenceGranted(g) =>
      && s.actorType.Human? && s.streamId == g.grantId && ValidReferenceGrant(g)
      && g.targetDataSpaceId == v.dataSpaceId && g.state.GrantActive? && g.validFrom <= s.now < g.expiresAt
    case BudgetReserved(b) =>
      && s.actorType.Human? && s.streamId == b.reservationId && b.dataSpaceId == v.dataSpaceId
      && b.workItemId in v.work.items && b.tokenLimit > 0
    case EffectPlanned(l) =>
      && s.actorType.Pilot? && s.streamId == l.leaseId && v.activation.stage.Activated?
      && l.dataSpaceId == v.dataSpaceId && l.state.PlannedLease? && s.now < l.expiresAt
      && l.executionId in v.agents.executions && v.agents.executions[l.executionId].workItemId == l.workItemId
      && forall k :: k in v.effects.leases && v.effects.leases[k].effectKey == l.effectKey ==> v.effects.leases[k].leaseId == l.leaseId
    case EffectApproved(a) =>
      && s.actorType.Human? && s.streamId == a.leaseId && v.activation.stage.Activated?
      && a.leaseId in v.effects.leases && v.effects.leases[a.leaseId].state.PlannedLease? && a.leaseId !in v.effects.approvals
      && s.actorId == Some(a.approvedBy) && a.approvedAt == s.now
    case EffectActivated(state) =>
      && s.actorType.Pilot? && v.activation.stage.Activated? && state.ActiveLease?
      && s.streamId in v.effects.leases && v.effects.leases[s.streamId].state.PlannedLease?
      && s.now < v.effects.leases[s.streamId].expiresAt && s.streamId in v.effects.approvals
    case EffectResultUnknown(state, key) =>
      && s.actorType.Pilot? && state.UnknownLease?
      && s.streamId in v.effects.leases && v.effects.leases[s.streamId].state.ActiveLease? && key == v.effects.leases[s.streamId].effectKey
    case EffectReconciled(state, key) =>
      && s.actorType.Human? && state in {SucceededLease, FailedLease}
      && s.streamId in v.effects.leases && v.effects.leases[s.streamId].state.UnknownLease? && key == v.effects.leases[s.streamId].effectKey
    case _ => false
  }

  predicate AdmitsRoutes(v: View, s: Step) {
    s.actorType.Human? &&
    match s.body
    case RouteRegistered(r) =>
      s.streamId == r.snapshotId && r.dataSpaceId == v.dataSpaceId && r.state.Draft? && ValidRouteSnapshot(r)
    case RouteSnapshotApproved(approval, state) =>
      && s.streamId in v.routes
      && ((approval.S3StarApproval? && v.routes[s.streamId].state.Draft? && state.S3StarApproved?)
          || (approval.OwnerApproval? && v.routes[s.streamId].state.S3StarApproved? && state.OwnerApproved?))
    case RoutePublished =>
      && s.streamId in v.routes && v.routes[s.streamId].state.OwnerApproved?
      && forall k :: k in v.routes && v.routes[k].snapshotId != s.streamId && v.routes[k].routeKey == v.routes[s.streamId].routeKey
                     ==> !v.routes[k].state.Published?
    case RouteRetired(reason, replacement) =>
      && s.streamId in v.routes && v.routes[s.streamId].state.Published?
      && RetirementOk(v.routes, v.routes[s.streamId], reason, replacement)
    case _ => false
  }

  /** Everything that is checked before the command records its event. */
  ghost predicate Admits(v: View, s: Step) {
    if s.body.ActivationEvent? then AdmitsActivation(v.dataSpaceId, v.activation, s)
    else
      && (s.actorId.None? <==> s.body.PilotHostDisconnected?)
      && match AreaOf(s.body)
         case WorkArea => AdmitsWork(v, s)
         case AgentArea => AdmitsAgents(v, s)
         case EffectArea => AdmitsEffects(v, s)
         case RouteArea => AdmitsRoutes(v, s)
  }

  // ---- recording

  function Correlation(v: View, s: Step): Option<Id> {
    match s.body
    case ExecutionCreated(x) => Some(x.workItemId)
    case NotificationDelivered(n) => if n.relatedWorkItemId.Some? then n.relatedWorkItemId else Some(n.notificationId)
    case NotificationPromoted(_, target) => Some(target)
    case AgentNameAssigned(a) => Some(a.workItemId)
    case AgentIdentityRegistered(r) => Some(r.nodeId)
    case ExecutionStateChanged(_, _) => if s.streamId in v.agents.executions then Some(v.agents.executions[s.streamId].workItemId) else None
    case ReceiptRecorded(r) => Some(r.workItemId)
    case BudgetReserved(b) => Some(b.workItemId)
    case EffectPlanned(l) => Some(l.workItemId)
    case EffectApproved(_) | EffectActivated(_) | EffectResultUnknown(_, _) | EffectReconciled(_, _) =>
      if s.streamId in v.effects.leases then Some(v.effects.leases[s.streamId].workItemId) else None
    case _ => Some(s.streamId)
  }

  function Causation(s: Step): Option<Id> {
    match s.body
    case NotificationDelivered(n) => n.relatedExecutionId
    case NotificationPromoted(id, _) => Some(id)
    case AgentNameAssigned(a) => Some(a.executionId)
    case _ => None
  }

  /** The stream version the writer of this step believes in. */
  function Expected(v: View, s: Step): nat {
    if s.body.ActivationEvent? then v.activation.version else VersionOf(v.versions, s.streamId)
  }

  function Envelope(dataSpaceId: Id, s: Step, expected: nat, correlation: Option<Id>): Event {
    Event(EventId(dataSpaceId, s.streamId, s.key), dataSpaceId, s.streamId, expected + 1, s.recordedAt,
          s.actorType, s.actorId, correlation, Causation(s), s.key, s.body)
  }

  function EventOf(v: View, s: Step): Event {
    Envelope(v.dataSpaceId, s, Expected(v, s), Correlation(v, s))
  }

  /** An activation command seen by the activation service alone. */
  ghost predicate ActivationAccepted(dataSpaceId: Id, a: ActivationView, log: seq<StoredEvent>, s: Step)
    requires s.body.ActivationEvent?
  {
    && AdmitsActivation(dataSpaceId, a, s)
    && OutcomeOf(dataSpaceId, log, Envelope(dataSpaceId, s, a.version, Some(s.streamId)), a.version).Appended?
  }

  function ActivationStored(dataSpaceId: Id, a: ActivationView, log: seq<StoredEvent>, s: Step): StoredEvent {
    StoredEvent(|log| + 1, Envelope(dataSpaceId, s, a.version, Some(s.streamId)))
  }

  /** The command passes its checks and its event is newly appended. */
  ghost predicate Accepted(s: Sys, step: Step) {
    && Admits(s.view, step)
    && OutcomeOf(s.view.dataSpaceId, s.log, EventOf(s.view, step), Expected(s.view, step)).Appended?
  }

  function StoredFor(s: Sys, step: Step): StoredEvent {
    StoredEvent(|s.log| + 1, EventOf(s.view, step))
  }

  /** The state after a command, accepted or not. */
  ghost function Exec(s: Sys, step: Step): Sys {
    if !Accepted(s, step) then s
    else
      var stored := StoredFor(s, step);
      match Handle(s.view, stored)
      case Ok(next) => Sys(next, s.log + [stored])
      case Err(_) => Sys(s.view, s.log + [stored])
  }

  function Start(dataSpaceId: Id, activationStream: Id): Sys {
    Sys(NewView(dataSpaceId, activationStream), [])
  }

  /** A whole session of commands, accepted or rejected, in order. */
  ghost function Run(s: Sys, steps: seq<Step>): Sys {
    if steps == [] then s else Exec(Run(s, steps[..|steps| - 1]), steps[|steps| - 1])
  }

  /** The states that sessions of commands from empty services lead to. */
  ghost predicate Reachable(s: Sys) {
    exists steps :: Run(Start(s.view.dataSpaceId, s.view.activation.streamId), steps) == s
  }
}
