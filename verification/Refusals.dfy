/** Why a command is refused: for each command the errors it can raise, one by one. A command is admitted exactly when
    none of them applies, and what is recorded is exactly its own event. */
module Refusals {
  import opened Models
  import opened Events
  import opened Ledger
  import opened Views
  import opened Commands
  import opened Consistency
  import opened Runs
  import opened Acceptance
  import Graph

  /** Who may ask for a command, and on which stream it is recorded. */
  predicate Addressed(s: Step) {
    s.actorId.Some? == !s.body.PilotHostDisconnected?
    && match s.body
       case NodeRegistered(n) => s.actorType.Human? && s.streamId == n.nodeId
       case CapabilityGranted(g) => s.actorType.Human? && s.streamId == g.grantId
       case WorkItemCreated(w) => s.actorType.Human? && s.streamId == w.workItemId
       case WorkDependencyAdded(e) => s.actorType.Human? && s.streamId == e.source && e.kind.DependsOn?
       case WorkGraphImported(g) => s.actorType.Human? && s.streamId == g.snapshotId
       case WorkItemDelegated(_) | WorkItemResumePrepared | WorkItemCompleted(_) | HumanIntervention(_) => s.actorType.Human?
       case FindingRecorded(f) => s.actorType.System? && s.streamId == f.workItemId
       case RiskAccepted(_, _, _) => s.actorType.Human?
       case ExecutionCreated(x) => s.actorType.Human? && s.streamId == x.executionId
       case ExecutionStateChanged(_, _) => true
       case ReceiptRecorded(r) => s.actorType.Pilot? && s.streamId == r.executionId
       case PilotHostDisconnected(host) => s.actorType.System? && s.streamId == host
       case AgentNameAssigned(a) => s.actorType.System? && s.streamId == a.assignmentId
       case AgentIdentityRegistered(r) => s.actorType.System? && s.streamId == r.registrationId
       case NotificationDelivered(n) => s.actorType.System? && s.streamId == n.notificationId
       case NotificationPromoted(id, _) => s.actorType.System? && s.streamId == id
       case ReferenceGranted(g) => s.actorType.Human? && s.streamId == g.grantId
       case BudgetReserved(b) => s.actorType.Human? && s.streamId == b.reservationId
       case EffectPlanned(l) => s.actorType.Pilot? && s.streamId == l.leaseId
       case EffectApproved(a) => s.actorType.Human? && s.streamId == a.leaseId && s.actorId == Some(a.approvedBy) && a.approvedAt == s.now
       case EffectActivated(state) => s.actorType.Pilot? && state == ActiveLease
       case EffectResultUnknown(state, _) => s.actorType.Pilot? && state == UnknownLease
       case EffectReconciled(_, _) => s.actorType.Human?
       case RouteRegistered(r) => s.actorType.Human? && s.streamId == r.snapshotId
       case RouteSnapshotApproved(approval, state) =>
         s.actorType.Human? && state == (if approval.S3StarApproval? then S3StarApproved else OwnerApproved)
       case RoutePublished | RouteRetired(_, _) => s.actorType.Human?
       case ActivationEvent(change) =>
         match change
         case HistoryImportVerified(_, _) => s.actorType.Human?
         case ReorientationStarted | ReorientationRetryStarted(_) | ReorientationRevisionRetryStarted(_) | SessionCheckpointed(_)
            | HistoryQueryResolved(_) | UsageRecorded(_, _) | AssessmentAccepted(_) => s.actorType.Pilot?
         case ReorientationFailed(_) | ReorientationInterrupted | SessionIndexPageVerified(_) => s.actorType.System?
         case RevisionRequested(_, _) => s.actorType.Human? || s.actorType.System?
         case ActivationApproved(_, at) => s.actorType.Human? && at == s.now
  }

  // ---- work

  /** The errors of the work commands. */
  ghost predicate WorkRefuses(v: View, s: Step)
    requires !s.body.ActivationEvent? && AreaOf(s.body).WorkArea?
  {
    var nodes, items := v.work.nodes, v.work.items;
    match s.body
    case NodeRegistered(n) =>
      || n.dataSpaceId != v.dataSpaceId || n.nodeId in nodes || (n.kind.InterfaceNode? && n.parentNodeId.Some?)
      || (n.parentNodeId.Some? && (n.parentNodeId.value !in nodes || nodes[n.parentNodeId.value].dataSpaceId != n.dataSpaceId))
    case WorkItemCreated(w) =>
      || w.dataSpaceId != v.dataSpaceId || (w.state != Proposed && w.state != Ready)
      || w.evidence.Some? || |w.blockers| > 0 || |w.acceptanceCriteria| == 0
      || w.ownerNodeId !in nodes || w.delegatedToNodeId !in nodes || w.integrationOwnerNodeId !in nodes
      || (w.parentWorkItemId.Some? && w.parentWorkItemId.value !in items)
      || (w.parentWorkItemId.Some? && items[w.parentWorkItemId.value].integrationOwnerNodeId != w.integrationOwnerNodeId)
    case WorkDependencyAdded(e) =>
      || e.source !in items || e.target !in items || e.source == e.target || e in v.work.edges
      || (exists p :: Graph.IsPath(Graph.Dependencies(v.work.edges), p) && p[0] == e.target && p[|p| - 1] == e.source)
    case WorkGraphImported(g) =>
      || v.activation.workGraphSnapshotId.Some? || v.activation.stage != Uncommissioned || ImportRefuses(v, g)
    case WorkItemDelegated(nodeId) =>
      || s.streamId !in items || nodeId !in nodes || (items[s.streamId].state != Proposed && items[s.streamId].state != Ready)
      || exists k :: k in v.agents.executions && v.agents.executions[k].workItemId == s.streamId
    case WorkItemResumePrepared =>
      || v.activation.stage != AwaitingOwner || v.activation.assessment.None?
      || s.streamId !in v.activation.assessment.value.resumeWorkItemIds || s.streamId !in items
      || |items[s.streamId].blockers| > 0 || items[s.streamId].delegatedToNodeId !in nodes
      || (items[s.streamId].state != Proposed && items[s.streamId].state != Ready && items[s.streamId].state != PausedWork)
    case WorkItemCompleted(e) =>
      || s.streamId !in items || |items[s.streamId].blockers| > 0
      || !e.acceptanceSatisfied || !e.requiredTestsPassed || |e.blockingDeviations| > 0
      || !e.independentGate || !e.integrationBranchMerged || !e.remotePushSucceeded
      || exists i :: 0 <= i < |v.work.edges| && v.work.edges[i].source == s.streamId && v.work.edges[i].kind == DependsOn
                     && (v.work.edges[i].target !in items || items[v.work.edges[i].target].state != Completed)
    case HumanIntervention(_) => s.streamId !in items
    case FindingRecorded(f) => f.workItemId !in items || f.nodeId !in nodes || f.acceptedByS5
    case RiskAccepted(id, s5NodeId, _) =>
      id !in v.work.findings || s5NodeId != v.work.findings[id].nodeId || s.streamId != v.work.findings[id].workItemId
    case _ => true
  }

  /** The errors of an import. */
  ghost predicate ImportRefuses(v: View, g: WorkGraph) {
    || g.dataSpaceId != v.dataSpaceId || g.digest != WorkGraphDigest(g.snapshotId, g.dataSpaceId, g.nodes, g.workItems, g.edges)
    || (exists i, j :: 0 <= i < j < |g.nodes| && g.nodes[i].nodeId == g.nodes[j].nodeId)
    || (exists i, j :: 0 <= i < j < |g.workItems| && g.workItems[i].workItemId == g.workItems[j].workItemId)
    || (exists i, j :: 0 <= i < j < |g.edges| && g.edges[i] == g.edges[j])
    || (forall i :: 0 <= i < |g.workItems| ==> g.workItems[i].state == Completed || g.workItems[i].state == CancelledWork)
    || (exists i :: 0 <= i < |g.nodes| && g.nodes[i].dataSpaceId != v.dataSpaceId)
    || (exists i :: 0 <= i < |g.nodes| && g.nodes[i].nodeId in v.work.nodes && v.work.nodes[g.nodes[i].nodeId] != g.nodes[i])
    || (exists i :: 0 <= i < |g.workItems| && (g.workItems[i].workItemId in v.work.items || g.workItems[i].dataSpaceId != v.dataSpaceId))
    || (exists i :: 0 <= i < |g.workItems| && (|| !NodeKnown(v, g, g.workItems[i].ownerNodeId)
                                               || !NodeKnown(v, g, g.workItems[i].delegatedToNodeId)
                                               || !NodeKnown(v, g, g.workItems[i].integrationOwnerNodeId)))
    || (exists i :: 0 <= i < |g.workItems| && g.workItems[i].parentWorkItemId.Some? && !ItemListed(g, g.workItems[i].parentWorkItemId.value))
    || (exists i :: 0 <= i < |g.edges| && (!ItemListed(g, g.edges[i].source) || !ItemListed(g, g.edges[i].target)))
  }

  /** The node is registered, or comes with the graph. */
  predicate NodeKnown(v: View, g: WorkGraph, id: Id) {
    id in v.work.nodes || exists i :: 0 <= i < |g.nodes| && g.nodes[i].nodeId == id
  }

  predicate ItemListed(g: WorkGraph, id: Id) {
    exists i :: 0 <= i < |g.workItems| && g.workItems[i].workItemId == id
  }

  lemma {:induction false} ItemListedIff(items: seq<WorkItem>, id: Id)
    ensures id in WorkItemsById(items) <==> exists i :: 0 <= i < |items| && items[i].workItemId == id
  {
    if items != [] {
      var front, last := items[..|items| - 1], items[|items| - 1];
      ItemListedIff(front, id);
      if i :| 0 <= i < |items| && items[i].workItemId == id {
        if i < |front| { assert front[i] == items[i]; }
      }
      if i :| 0 <= i < |front| && front[i].workItemId == id { assert items[i] == front[i]; }
    }
  }

  lemma {:induction false} NodeListedIff(nodes: seq<Node>, id: Id)
    ensures id in NodesById(nodes) <==> exists i :: 0 <= i < |nodes| && nodes[i].nodeId == id
  {
    if nodes != [] {
      var front, last := nodes[..|nodes| - 1], nodes[|nodes| - 1];
      NodeListedIff(front, id);
      if i :| 0 <= i < |nodes| && nodes[i].nodeId == id {
        if i < |front| { assert front[i] == nodes[i]; }
      }
      if i :| 0 <= i < |front| && front[i].nodeId == id { assert nodes[i] == front[i]; }
    }
  }

  lemma ImportAdmits(v: View, g: WorkGraph)
    requires v.activation.workGraphSnapshotId.None? && v.activation.stage.Uncommissioned?
    ensures ImportOk(v, g) <==> !ImportRefuses(v, g)
  {
    hide NodesById, WorkItemsById;
    forall id ensures NodeKnown(v, g, id) <==> id in NodesById(g.nodes) + v.work.nodes { NodeListedIff(g.nodes, id); }
    forall id ensures ItemListed(g, id) <==> id in WorkItemsById(g.workItems) { ItemListedIff(g.workItems, id); }
  }

  lemma WorkAdmits(v: View, s: Step)
    requires !s.body.ActivationEvent? && AreaOf(s.body).WorkArea? && Addressed(s)
    ensures AdmitsWork(v, s) <==> !WorkRefuses(v, s)
  {
    hide Graph.Dependencies, Graph.IsPath, ImportOk, ImportRefuses;
    if s.body.WorkGraphImported? {
      if ImportOk(v, s.body.graph) {
        ImportNeeds(v, s.body.graph);
      }
      if v.activation.workGraphSnapshotId.None? && v.activation.stage.Uncommissioned? {
        ImportAdmits(v, s.body.graph);
      }
    }
  }

  lemma ImportNeeds(v: View, g: WorkGraph)
    requires ImportOk(v, g)
    ensures v.activation.workGraphSnapshotId.None? && v.activation.stage.Uncommissioned?
  {
  }

  // ---- executions, names and notifications

  /** The name belongs to the owner's seat or was issued to some agent. */
  ghost predicate NameTaken(a: AgentView, name: string) {
    || name == "Nagi"
    || (exists k :: k in a.assignments && a.assignments[k].agentName == name)
    || (exists k :: k in a.registrations && a.registrations[k].agentName == name)
  }

  /** The transition table of an execution: a terminal one stays, nothing returns to requested, and only an active one
      succeeds on request. */
  predicate MoveRefused(from: ExecutionState, to: ExecutionState) {
    || from == SucceededExecution || from == FailedExecution || from == CancelledExecution || to == Requested || from == to
    || (to == SucceededExecution && from != ActiveExecution)
  }

  /** The errors of the execution, naming and notification commands. */
  ghost predicate AgentRefuses(v: View, s: Step)
    requires !s.body.ActivationEvent? && AreaOf(s.body).AgentArea?
  {
    var items, xs := v.work.items, v.agents.executions;
    match s.body
    case ExecutionCreated(x) =>
      || v.activation.stage != Activated || x.dataSpaceId != v.dataSpaceId || (x.state != Requested && x.state != ActiveExecution)
      || x.nodeId !in v.work.nodes || x.workItemId !in items || items[x.workItemId].delegatedToNodeId != x.nodeId || x.executionId in xs
    case ExecutionStateChanged(state, reason) =>
      || s.streamId !in xs || MoveRefused(xs[s.streamId].state, state)
      || (state == PausedExecution && (reason == None || reason == Some("")))
    case ReceiptRecorded(r) =>
      || s.streamId !in xs || xs[s.streamId].state != Requested || r.report.status == InProgress
      || (r.report.status == ReceiptSucceeded
          && (r.report.actualModel.None? || r.report.providerSessionId.None? || r.report.usage.None? || r.report.result.None? || r.report.error.Some?))
      || (r.report.status != ReceiptSucceeded && (r.report.result.Some? || r.report.error.None?))
      || r.workItemId != xs[s.streamId].workItemId || r.agentName != xs[s.streamId].agentName
      || r.assignmentId != AssignmentFor(v.agents.assignments, s.streamId)
      || r.state != (if r.report.status == ReceiptSucceeded then SucceededExecution
                     else if r.report.status == ReceiptFailed then FailedExecution else PausedExecution)
      || r.pauseReason != (if r.report.status == TransportUnknown then Some("pilot_receipt_reconciliation_required") else None)
    case PilotHostDisconnected(_) => false
    case AgentNameAssigned(a) =>
      || s.context != IssuedName(Some(a)) || a.dataSpaceId != v.dataSpaceId || a.assignmentId in v.agents.assignments
      || (exists k :: k in v.agents.assignments && v.agents.assignments[k].agentName == a.agentName)
      || a.executionId !in xs || xs[a.executionId].workItemId != a.workItemId || xs[a.executionId].nodeId != a.nodeId
      || xs[a.executionId].pilotId != a.pilotId || xs[a.executionId].agentName.Some?
    case AgentIdentityRegistered(r) =>
      || s.context != IssuedIdentity(Some(r)) || r.dataSpaceId != v.dataSpaceId || r.registrationId in v.agents.registrations
      || NameTaken(v.agents, r.agentName) || r.nodeId !in v.work.nodes
    case NotificationDelivered(n) =>
      || n.dataSpaceId != v.dataSpaceId || n.notificationId in v.agents.notifications || (n.promotedWorkItemId.Some? && !n.requiresWorkItem)
      || (n.sourceKind == AgentToAgent
          && (|| n.senderAgentName.None? || n.relatedWorkItemId.None? || n.relatedExecutionId.None?
              || !NameTaken(v.agents, n.senderAgentName.value) || !NameTaken(v.agents, n.recipientAgentName)
              || n.relatedWorkItemId.value !in items || n.relatedExecutionId.value !in xs
              || xs[n.relatedExecutionId.value].workItemId != items[n.relatedWorkItemId.value].workItemId))
    case NotificationPromoted(id, target) =>
      || id !in v.agents.notifications || !v.agents.notifications[id].requiresWorkItem
      || v.agents.notifications[id].promotedWorkItemId.Some? || target == id || target !in items
    case _ => true
  }

  lemma AgentAdmits(v: View, s: Step)
    requires !s.body.ActivationEvent? && AreaOf(s.body).AgentArea? && Addressed(s)
    ensures AdmitsAgents(v, s) <==> !AgentRefuses(v, s)
  {
  }

  // ---- grants, budgets, effects and routes

  /** The errors of the grant, budget and effect commands. */
  predicate EffectRefuses(v: View, s: Step)
    requires !s.body.ActivationEvent? && AreaOf(s.body).EffectArea?
  {
    var nodes, leases := v.work.nodes, v.effects.leases;
    match s.body
    case CapabilityGranted(g) =>
      || g.dataSpaceId != v.dataSpaceId || g.state != GrantActive || g.grantorNodeId !in nodes || g.granteeNodeId !in nodes
      || g.validFrom >= g.expiresAt || s.now < g.validFrom || s.now >= g.expiresAt
    case ReferenceGranted(g) =>
      || g.targetDataSpaceId != v.dataSpaceId || g.sourceDataSpaceId == g.targetDataSpaceId || |g.subjectRefs| == 0 || g.state != GrantActive
      || g.validFrom >= g.expiresAt || s.now < g.validFrom || s.now >= g.expiresAt
    case BudgetReserved(b) => b.dataSpaceId != v.dataSpaceId || b.workItemId !in v.work.items || b.tokenLimit == 0
    case EffectPlanned(l) =>
      || v.activation.stage != Activated || l.dataSpaceId != v.dataSpaceId || l.state != PlannedLease || l.expiresAt <= s.now
      || l.executionId !in v.agents.executions || v.agents.executions[l.executionId].workItemId != l.workItemId
      || exists k :: k in leases && leases[k].effectKey == l.effectKey && leases[k].leaseId != l.leaseId
    case EffectApproved(a) =>
      v.activation.stage != Activated || a.leaseId !in leases || leases[a.leaseId].state != PlannedLease || a.leaseId in v.effects.approvals
    case EffectActivated(_) =>
      || v.activation.stage != Activated || s.streamId !in leases || leases[s.streamId].state != PlannedLease
      || leases[s.streamId].expiresAt <= s.now || s.streamId !in v.effects.approvals
    case EffectResultUnknown(_, key) => s.streamId !in leases || leases[s.streamId].state != ActiveLease || key != leases[s.streamId].effectKey
    case EffectReconciled(state, key) =>
      || s.streamId !in leases || leases[s.streamId].state != UnknownLease || key != leases[s.streamId].effectKey
      || (state != SucceededLease && state != FailedLease)
    case _ => true
  }

  lemma EffectAdmits(v: View, s: Step)
    requires !s.body.ActivationEvent? && AreaOf(s.body).EffectArea? && Addressed(s)
    ensures AdmitsEffects(v, s) <==> !EffectRefuses(v, s)
  {
  }

  /** The errors of the route commands. */
  predicate RouteRefuses(v: View, s: Step)
    requires !s.body.ActivationEvent? && AreaOf(s.body).RouteArea?
  {
    var routes, id := v.routes, s.streamId;
    match s.body
    case RouteRegistered(r) =>
      || r.dataSpaceId != v.dataSpaceId || r.state != Draft || |r.candidateKeys| == 0 || r.s3StarApprovalEvent.Some? || r.ownerApprovalEvent.Some?
      || exists i, j :: 0 <= i < j < |r.candidateKeys| && r.candidateKeys[i] == r.candidateKeys[j]
    case RouteSnapshotApproved(approval, _) =>
      || id !in routes || approval == OtherApproval
      || (approval == S3StarApproval && routes[id].state != Draft) || (approval == OwnerApproval && routes[id].state != S3StarApproved)
    case RoutePublished =>
      || id !in routes || routes[id].state != OwnerApproved
      || exists k :: k in routes && routes[k].snapshotId != id && routes[k].routeKey == routes[id].routeKey && routes[k].state == Published
    case RouteRetired(reason, replacement) =>
      || id !in routes || routes[id].state != Published
      || (reason == RouteDecommissioned && replacement.Some?)
      || (reason == SupersededByApproved
          && (|| replacement.None? || replacement.value == routes[id].snapshotId || replacement.value !in routes
              || routes[replacement.value].routeKey != routes[id].routeKey
              || (routes[replacement.value].state != OwnerApproved && routes[replacement.value].state != Published)))
    case _ => true
  }

  lemma RouteAdmits(v: View, s: Step)
    requires !s.body.ActivationEvent? && AreaOf(s.body).RouteArea? && Addressed(s)
    ensures AdmitsRoutes(v, s) <==> !RouteRefuses(v, s)
  {
  }

  // ---- activation

  /** The errors of the activation commands. */
  predicate ActivationRefuses(dataSpaceId: Id, a: ActivationView, s: Step)
    requires s.body.ActivationEvent?
  {
    var running := a.stage == ReorientationOnly && a.attempt.inProgress;
    || s.streamId != a.streamId
    || match s.body.change
       case HistoryImportVerified(r, conversation) =>
         || a.stage != Uncommissioned || a.workGraphSnapshotId.None? || |conversation| == 0 || r.dataSpaceId != dataSpaceId
         || r.kinds != {ClaudeCode, ClaudeAi, Codex, Intercom, Lethe, NaniholdLegacy, SystemSnapshot} || |r.sessions| != r.sessionCount
         || exists i, j :: 0 <= i < j < |r.sessions| && r.sessions[i].sessionRef == r.sessions[j].sessionRef
       case ReorientationStarted => a.stage != HistoryImported || a.attempt.inProgress
       case ReorientationRetryStarted(prior) => a.stage != ReorientationOnly || a.attempt.inProgress || a.attempt.error != Some(prior)
       case ReorientationRevisionRetryStarted(reason) =>
         a.stage != ReorientationOnly || a.attempt.inProgress || a.attempt.error.Some? || a.attempt.pendingRevision != Some(reason)
       case ReorientationFailed(_) | ReorientationInterrupted => !running
       case SessionCheckpointed(session) => !running || |session| == 0
       case HistoryQueryResolved(operation) => a.stage != ReorientationOnly || operation == ListSessions
       case SessionIndexPageVerified(_) => false
       case UsageRecorded(input, output) => !running || input < 0 || output < 0
       case AssessmentAccepted(x) => !running || !s.context.AssessmentContext? || AssessmentRefused(a, x, s.context)
       case RevisionRequested(prior, _) => a.stage != AwaitingOwner || a.assessment.None? || a.assessment.value.assessmentId != prior
       case ActivationApproved(id, _) => a.stage != AwaitingOwner || a.assessment.None? || a.assessment.value.assessmentId != id
  }

  /** The errors of a submitted assessment. */
  predicate AssessmentRefused(a: ActivationView, x: Assessment, c: Context)
    requires c.AssessmentContext?
  {
    || a.history.receipt.None? || a.history.receipt.value.inventoryId != x.importId || a.history.conversationId != Some(x.conversationId)
    || a.history.receipt.value.sessionIndexRef != x.coveredIndexRef || a.history.receipt.value.sessionCount != x.coveredSessionCount
    || !c.indexListedToEnd
    || (exists id :: id in x.openCommitmentIds && id !in c.openCommitments) || (exists id :: id in c.openCommitments && id !in x.openCommitmentIds)
    || (|c.existingWorkItems| > 0 && |x.resumeWorkItemIds| == 0) || (exists id :: id in x.resumeWorkItemIds && id !in c.existingWorkItems)
    || x.historyCursor < a.history.cursor || x.currentStateCursor < x.historyCursor
    || GetCurrentState !in a.evidence.operations
    || !Cited(x, Understanding)
    || (exists m :: 0 <= m < x.missionCount && !Cited(x, ActiveMission(m)))
    || (exists d :: 0 <= d < x.decisionCount && !Cited(x, DecisionOrConstraint(d)))
    || (exists i :: 0 <= i < |x.citations| && x.citations[i].evidence !in a.evidence.eventIds)
  }

  predicate Cited(x: Assessment, claim: Claim) {
    exists i :: 0 <= i < |x.citations| && x.citations[i].claim == claim
  }

  lemma AssessmentAdmits(a: ActivationView, x: Assessment, c: Context)
    requires c.AssessmentContext?
    ensures AssessmentAcceptable(a, x, c) <==> a.stage == ReorientationOnly && a.attempt.inProgress && !AssessmentRefused(a, x, c)
  {
    var listed := set id | id in x.openCommitmentIds;
    assert listed == c.openCommitments <==> (forall id :: id in x.openCommitmentIds ==> id in c.openCommitments)
                                            && (forall id :: id in c.openCommitments ==> id in x.openCommitmentIds);
    assert forall m :: Cited(x, ActiveMission(m)) <==> exists i :: 0 <= i < |x.citations| && x.citations[i].claim == ActiveMission(m);
    assert forall d :: Cited(x, DecisionOrConstraint(d)) <==> exists i :: 0 <= i < |x.citations| && x.citations[i].claim == DecisionOrConstraint(d);
  }

  lemma ActivationAdmits(dataSpaceId: Id, a: ActivationView, s: Step)
    requires s.body.ActivationEvent? && Addressed(s)
    ensures AdmitsActivation(dataSpaceId, a, s) <==> !ActivationRefuses(dataSpaceId, a, s)
  {
    hide AssessmentAcceptable, AssessmentRefused;
    if s.body.change.AssessmentAccepted? && s.context.AssessmentContext? {
      AssessmentAdmits(a, s.body.change.assessment, s.context);
    }
    if s.body.change.AssessmentAccepted? && AssessmentAcceptable(a, s.body.change.assessment, s.context) {
      NeedsContext(a, s.body.change.assessment, s.context);
    }
  }

  lemma NeedsContext(a: ActivationView, x: Assessment, c: Context)
    requires AssessmentAcceptable(a, x, c)
    ensures c.AssessmentContext?
  {
  }

  // ---- all commands

  /** Some error of the command applies. */
  ghost predicate Refuses(v: View, s: Step) {
    if s.body.ActivationEvent? then ActivationRefuses(v.dataSpaceId, v.activation, s)
    else match AreaOf(s.body)
      case WorkArea => WorkRefuses(v, s)
      case AgentArea => AgentRefuses(v, s)
      case EffectArea => EffectRefuses(v, s)
      case RouteArea => RouteRefuses(v, s)
  }

  /** In every reachable state a command is accepted exactly when none of its errors applies, its idempotency key is
      unused, and its stream is not the other service's. */
  lemma AcceptedUnlessRefused(s: Sys, step: Step)
    requires Reachable(s) && Addressed(step)
    ensures Accepted(s, step) <==> !Refuses(s.view, step) && !KeyUsed(s.log, step.key) && OwnStream(s.view, step)
  {
    hide Reachable, Accepted, KeyUsed, OwnStream, AdmitsWork, AdmitsAgents, AdmitsEffects, AdmitsRoutes, AdmitsActivation,
      WorkRefuses, AgentRefuses, EffectRefuses, RouteRefuses, ActivationRefuses;
    AcceptedIff(s, step);
    if step.body.ActivationEvent? {
      ActivationAdmits(s.view.dataSpaceId, s.view.activation, step);
    } else {
      match AreaOf(step.body)
      case WorkArea => WorkAdmits(s.view, step);
      case AgentArea => AgentAdmits(s.view, step);
      case EffectArea => EffectAdmits(s.view, step);
      case RouteArea => RouteAdmits(s.view, step);
    }
  }

  /** Every event of a reachable ledger was recorded when no error of its command applied. */
  lemma RecordedUnrefused(s: Sys, i: nat) returns (step: Step)
    requires Reachable(s) && i < |s.log|
    ensures s.log[i] == StoredFor(At(s, i), step) && Addressed(step) && !Refuses(At(s, i).view, step)
  {
    hide Reachable, At, KeyUsed, OwnStream, Refuses, Addressed;
    step := EventAdmitted(s, i);
    PrefixReachable(s, i);
    MovesAdmits(At(s, i), step, At(s, i + 1));
    AdmittedAddressed(At(s, i).view, step);
    AdmittedUnrefused(At(s, i).view, step);
  }

  lemma MovesAdmits(p: Sys, step: Step, s: Sys)
    requires Moves(p, step, s)
    ensures Admits(p.view, step)
  {
    hide Admits, Handle;
  }

  lemma AdmittedAddressed(v: View, step: Step)
    requires Admits(v, step)
    ensures Addressed(step)
  {
    hide ImportOk, NewWorkOk, ResumeOk, GatesSatisfied, DependenciesCompleted, ValidAgentMessage, NameRegistered, AssignmentFor, RetirementOk,
      AssessmentAcceptable, Graph.Reaches, Graph.Dependencies, ReportOk;
  }

  lemma AdmittedUnrefused(v: View, step: Step)
    requires Admits(v, step) && Addressed(step)
    ensures !Refuses(v, step)
  {
    hide AdmitsWork, AdmitsAgents, AdmitsEffects, AdmitsRoutes, AdmitsActivation,
      WorkRefuses, AgentRefuses, EffectRefuses, RouteRefuses, ActivationRefuses, Addressed;
    if step.body.ActivationEvent? {
      ActivationAdmits(v.dataSpaceId, v.activation, step);
    } else {
      match AreaOf(step.body)
      case WorkArea => WorkAdmits(v, step);
      case AgentArea => AgentAdmits(v, step);
      case EffectArea => EffectAdmits(v, step);
      case RouteArea => RouteAdmits(v, step);
    }
  }

  // ---- what is recorded

  /** What a recorded event is correlated with: mostly its own stream, and the work item for what concerns one. */
  ghost predicate CorrelatedWith(v: View, s: Step, id: Option<Id>) {
    match s.body
    case ExecutionCreated(x) => id == Some(x.workItemId)
    case AgentNameAssigned(a) => id == Some(a.workItemId)
    case AgentIdentityRegistered(r) => id == Some(r.nodeId)
    case ReceiptRecorded(r) => id == Some(r.workItemId)
    case BudgetReserved(b) => id == Some(b.workItemId)
    case EffectPlanned(l) => id == Some(l.workItemId)
    case NotificationPromoted(_, target) => id == Some(target)
    case NotificationDelivered(n) => id == if n.relatedWorkItemId.None? then Some(n.notificationId) else n.relatedWorkItemId
    case ExecutionStateChanged(_, _) => s.streamId in v.agents.executions && id == Some(v.agents.executions[s.streamId].workItemId)
    case EffectApproved(_) | EffectActivated(_) | EffectResultUnknown(_, _) | EffectReconciled(_, _) =>
      s.streamId in v.effects.leases && id == Some(v.effects.leases[s.streamId].workItemId)
    case _ => id == Some(s.streamId)
  }

  /** An accepted command records its own event: under the next cursor and the next version of its stream, with the
      identity derived from its stream and key, its actor, clock reading and references. */
  lemma RecordedEvent(s: Sys, step: Step)
    requires Reachable(s) && Accepted(s, step)
    ensures var d, e := StoredFor(s, step), StoredFor(s, step).event;
            && Exec(s, step).log == s.log + [d] && d.cursor == |s.log| + 1
            && e.streamVersion == StreamLength(s.log, step.streamId) + 1
            && e.eventId.dataSpaceId == s.view.dataSpaceId == e.dataSpaceId && e.eventId.streamId == step.streamId == e.streamId
            && e.eventId.idempotencyKey == step.key == e.idempotencyKey
            && e.occurredAt == step.recordedAt && e.actorType == step.actorType && e.actorId == step.actorId && e.body == step.body
            && CorrelatedWith(s.view, step, e.correlationId)
            && e.causationId == (match step.body
                                 case NotificationDelivered(n) => n.relatedExecutionId
                                 case NotificationPromoted(id, _) => Some(id)
                                 case AgentNameAssigned(a) => Some(a.executionId)
                                 case _ => None)
  {
    hide Reachable, Moves, Handle, StreamLength, AdmitsWork, AdmitsRoutes, AdmitsActivation, NameRegistered, ValidAgentMessage, AssignmentFor;
    AcceptedMoves(s, step);
  }
}
