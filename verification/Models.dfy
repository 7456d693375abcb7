/** Entities of the control plane: the frozen records and the state enumerations that
    the Kernel, the activation service and the ledger exchange. Text that no rule looks
    at (titles, descriptions, statements) is kept as one `note` per record. */
module Models {

  type Id = string
  type Time = int

  datatype Option<+T> = None | Some(value: T)

  /** Why a call was refused: a broken rule, a stale stream version, or an outcome that is not known yet. */
  datatype Fault = InvariantViolation | StreamConflict | ReconciliationRequired

  datatype Result<+T> = Ok(value: T) | Err(fault: Fault)

  // ---- nodes and grants

  datatype NodeKind = Organization | Unit | InterfaceNode | Experiment

  datatype Node = Node(nodeId: Id, dataSpaceId: Id, ownerId: Id, kind: NodeKind, parentNodeId: Option<Id>, note: string)

  /** An owner interface node has no parent. */
  predicate ValidNode(n: Node) {
    n.kind.InterfaceNode? ==> n.parentNodeId.None?
  }

  datatype GrantState = GrantActive | GrantRevoked | GrantExpired

  datatype CapabilityGrant = CapabilityGrant(
    grantId: Id, dataSpaceId: Id, grantorNodeId: Id, granteeNodeId: Id,
    validFrom: Time, expiresAt: Time, state: GrantState, note: string)

  datatype ReferenceGrant = ReferenceGrant(
    grantId: Id, sourceDataSpaceId: Id, targetDataSpaceId: Id, subjectRefs: seq<Id>,
    validFrom: Time, expiresAt: Time, state: GrantState, note: string)

  predicate ValidReferenceGrant(g: ReferenceGrant) {
    g.sourceDataSpaceId != g.targetDataSpaceId && g.subjectRefs != [] && g.validFrom < g.expiresAt
  }

  datatype BudgetReservation = BudgetReservation(reservationId: Id, dataSpaceId: Id, workItemId: Id, tokenLimit: nat, note: string)

  // ---- work graph

  datatype WorkState = Proposed | Ready | Working | PausedWork | Blocked | Completed | CancelledWork

  datatype EdgeKind = DelegatedTo | DependsOn | IntegratedBy

  datatype WorkEdge = WorkEdge(source: Id, target: Id, kind: EdgeKind)

  datatype CompletionEvidence = CompletionEvidence(
    acceptanceSatisfied: bool, requiredTestsPassed: bool, blockingDeviations: seq<string>,
    independentGate: bool, integrationBranchMerged: bool, remotePushSucceeded: bool)

  /** The six completion gates. */
  predicate GatesSatisfied(e: CompletionEvidence) {
    e.acceptanceSatisfied && e.requiredTestsPassed && e.blockingDeviations == []
    && e.independentGate && e.integrationBranchMerged && e.remotePushSucceeded
  }

  datatype WorkItem = WorkItem(
    workItemId: Id, dataSpaceId: Id, ownerNodeId: Id, delegatedToNodeId: Id, integrationOwnerNodeId: Id,
    parentWorkItemId: Option<Id>, acceptanceCriteria: seq<string>, routeKey: string, state: WorkState,
    blockers: seq<Id>, evidence: Option<CompletionEvidence>, note: string)

  /** A SHA-256 digest is modelled as the value it was computed from, which makes it injective. */
  datatype WorkGraphDigest = WorkGraphDigest(
    snapshotId: Id, dataSpaceId: Id, nodes: seq<Node>, workItems: seq<WorkItem>, edges: seq<WorkEdge>)

  datatype WorkGraph = WorkGraph(
    snapshotId: Id, dataSpaceId: Id, nodes: seq<Node>, workItems: seq<WorkItem>, edges: seq<WorkEdge>, digest: WorkGraphDigest)

  function DigestOf(g: WorkGraph): WorkGraphDigest {
    WorkGraphDigest(g.snapshotId, g.dataSpaceId, g.nodes, g.workItems, g.edges)
  }

  predicate ValidWorkGraph(g: WorkGraph) {
    && (forall i, j :: 0 <= i < j < |g.nodes| ==> g.nodes[i].nodeId != g.nodes[j].nodeId)
    && (forall i, j :: 0 <= i < j < |g.workItems| ==> g.workItems[i].workItemId != g.workItems[j].workItemId)
    && (forall i, j :: 0 <= i < j < |g.edges| ==> g.edges[i] != g.edges[j])
    && (exists i :: 0 <= i < |g.workItems| && g.workItems[i].state !in {Completed, CancelledWork})
  }

  // ---- executions, names, notifications

  datatype ExecutionState = Requested | ActiveExecution | PausedExecution | SucceededExecution | FailedExecution | CancelledExecution

  datatype Execution = Execution(
    executionId: Id, dataSpaceId: Id, nodeId: Id, workItemId: Id, pilotId: Id, candidateKey: string,
    state: ExecutionState, providerSessionId: Option<string>, pilotHostId: Id,
    pauseReason: Option<string>, agentName: Option<string>)

  datatype NameColumn = Japanese | English | Latin

  datatype Assignment = Assignment(
    assignmentId: Id, dataSpaceId: Id, workItemId: Id, executionId: Id, nodeId: Id, pilotId: Id,
    agentName: string, baseName: string, suffix: nat, column: NameColumn, scale: nat, candidateKey: string)

  datatype Registration = Registration(
    registrationId: Id, dataSpaceId: Id, nodeId: Id, pilotId: Id,
    agentName: string, baseName: string, suffix: nat, column: NameColumn, scale: nat, candidateKey: string)

  /** The standing owner seat, a valid correspondent that is never issued by the registry. */
  const RESERVED_AGENT_NAME: string := "Nagi"

  datatype SourceKind = ChannelInbound | AgentToAgent

  datatype Notification = Notification(
    notificationId: Id, dataSpaceId: Id, sourceKind: SourceKind, sourceMessageId: string,
    senderAgentName: Option<string>, recipientAgentName: string, requiresWorkItem: bool,
    relatedWorkItemId: Option<Id>, relatedExecutionId: Option<Id>, promotedWorkItemId: Option<Id>, note: string)

  predicate ValidNotification(n: Notification) {
    && (n.sourceKind.AgentToAgent? ==> n.senderAgentName.Some? && n.relatedWorkItemId.Some? && n.relatedExecutionId.Some?)
    && (n.promotedWorkItemId.Some? ==> n.requiresWorkItem)
  }

  // ---- pilot receipts

  datatype ReceiptStatus = InProgress | ReceiptSucceeded | ReceiptFailed | TransportUnknown

  /** JSON documents are compared only for equality. */
  type Json = string

  datatype ReceiptReport = ReceiptReport(
    receiptId: Id, status: ReceiptStatus, requestedModel: Option<string>, actualModel: Option<string>,
    providerSessionId: Option<string>, usage: Option<Json>, result: Option<Json>, error: Option<string>)

  datatype ReceiptRecord = ReceiptRecord(
    report: ReceiptReport, executionId: Id, workItemId: Id, assignmentId: Option<Id>,
    state: ExecutionState, pauseReason: Option<string>, agentName: Option<string>)

  // ---- effects and findings

  datatype LeaseState = PlannedLease | ActiveLease | SucceededLease | FailedLease | UnknownLease | RevokedLease

  datatype EffectLease = EffectLease(
    leaseId: Id, dataSpaceId: Id, workItemId: Id, executionId: Id, effectKey: string, state: LeaseState, expiresAt: Time, note: string)

  datatype EffectApproval = EffectApproval(leaseId: Id, approvedBy: Id, approvedAt: Time)

  datatype Severity = Advisory | Severe

  datatype Finding = Finding(findingId: Id, workItemId: Id, nodeId: Id, severity: Severity, acceptedByS5: bool, note: string)

  // ---- routes

  datatype RouteState = Draft | S3StarApproved | OwnerApproved | Published | Retired

  datatype RouteSnapshot = RouteSnapshot(
    snapshotId: Id, dataSpaceId: Id, routeKey: string, evidenceCursor: nat, candidateKeys: seq<string>,
    state: RouteState, s3StarApprovalEvent: Option<EventId>, ownerApprovalEvent: Option<EventId>)

  datatype RouteApproval = S3StarApproval | OwnerApproval | OtherApproval

  datatype RetirementReason = SupersededByApproved | RouteDecommissioned

  /** Event identities hash the data space, the stream and the idempotency key. */
  datatype EventId = EventId(dataSpaceId: Id, streamId: Id, idempotencyKey: string)

  predicate ValidRouteSnapshot(r: RouteSnapshot) {
    && r.candidateKeys != []
    && (forall i, j :: 0 <= i < j < |r.candidateKeys| ==> r.candidateKeys[i] != r.candidateKeys[j])
    && match r.state
       case Draft => r.s3StarApprovalEvent.None? && r.ownerApprovalEvent.None?
       case S3StarApproved => r.s3StarApprovalEvent.Some? && r.ownerApprovalEvent.None?
       case _ => r.s3StarApprovalEvent.Some? && r.ownerApprovalEvent.Some?
  }

  // ---- activation

  datatype Stage = Uncommissioned | HistoryImported | ReorientationOnly | AwaitingOwner | Activated

  datatype HistorySession = HistorySession(sessionRef: string, messageCount: nat, note: string)

  datatype HistoryKind = ClaudeCode | ClaudeAi | Codex | Intercom | Lethe | NaniholdLegacy | SystemSnapshot

  const REQUIRED_KINDS: set<HistoryKind> := {ClaudeCode, ClaudeAi, Codex, Intercom, Lethe, NaniholdLegacy, SystemSnapshot}

  datatype ImportReceipt = ImportReceipt(
    inventoryId: Id, dataSpaceId: Id, kinds: set<HistoryKind>, sessionCount: nat, sessions: seq<HistorySession>, sessionIndexRef: string)

  predicate ValidImportReceipt(r: ImportReceipt) {
    && r.kinds == REQUIRED_KINDS
    && |r.sessions| == r.sessionCount
    && forall i, j :: 0 <= i < j < |r.sessions| ==> r.sessions[i].sessionRef != r.sessions[j].sessionRef
  }

  datatype HistoryOperation = ListSessions | ReadTimeline | ReadRaw | Search | ResolveReference | ListOpenCommitments | GetCurrentState

  datatype RevisionReason = MissingResumeWorkItem | OwnerCorrection

  const INTERRUPTED: string := "process_restart_interrupted_attempt"

  datatype Claim = Understanding | ActiveMission(index: nat) | DecisionOrConstraint(index: nat) | OtherClaim(text: string)

  datatype Citation = Citation(claim: Claim, evidence: EventId)

  datatype Assessment = Assessment(
    assessmentId: Id, importId: Id, conversationId: Id, missionCount: nat, decisionCount: nat,
    openCommitmentIds: seq<Id>, resumeWorkItemIds: seq<Id>, coveredIndexRef: string, coveredSessionCount: nat,
    historyCursor: nat, currentStateCursor: nat, citations: seq<Citation>, note: string)
}
