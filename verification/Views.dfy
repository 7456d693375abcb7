/** The mutable views of the control plane and how each ledger event changes them.
    `Apply` is what the projection's handlers do; it refuses an event that its handler raises on. */
module Views {
  import opened Models
  import opened Events

  /** The verified history import. */
  datatype ImportView = ImportView(receipt: Option<ImportReceipt>, sessions: map<string, HistorySession>, cursor: nat, conversationId: Option<Id>)

  /** The reorientation attempt: the last error, whether one runs, since when, and a requested revision. */
  datatype AttemptView = AttemptView(error: Option<string>, inProgress: bool, startedVersion: Option<nat>, pendingRevision: Option<RevisionReason>)

  /** History queries made and tokens used while reorienting. */
  datatype EvidenceView = EvidenceView(operations: set<HistoryOperation>, eventIds: set<EventId>, pilotCalls: nat, inputTokens: int, outputTokens: int)

  datatype ActivationView = ActivationView(
    streamId: Id, version: nat, stage: Stage, history: ImportView, attempt: AttemptView, evidence: EvidenceView,
    assessment: Option<Assessment>, approvedAt: Option<Time>, workGraphSnapshotId: Option<Id>, providerSessionId: Option<string>)

  datatype WorkView = WorkView(nodes: map<Id, Node>, items: map<Id, WorkItem>, edges: seq<WorkEdge>, findings: map<Id, Finding>)

  datatype AgentView = AgentView(
    executions: map<Id, Execution>, assignments: map<Id, Assignment>,
    registrations: map<Id, Registration>, notifications: map<Id, Notification>)

  datatype EffectView = EffectView(
    capabilities: map<Id, CapabilityGrant>, references: map<Id, ReferenceGrant>, budgets: map<Id, BudgetReservation>,
    leases: map<Id, EffectLease>, approvals: map<Id, EffectApproval>)

  /** All the dictionaries of the Kernel, its per-stream versions, and the activation service. */
  datatype View = View(
    dataSpaceId: Id, work: WorkView, agents: AgentView, effects: EffectView,
    routes: map<Id, RouteSnapshot>, versions: map<Id, nat>, activation: ActivationView)

  function NewActivation(streamId: Id): ActivationView {
    ActivationView(streamId, 0, Uncommissioned, ImportView(None, map[], 0, None), AttemptView(None, false, None, None),
                   EvidenceView({}, {}, 0, 0, 0), None, None, None, None)
  }

  /** Freshly constructed services over an empty ledger. */
  function NewView(dataSpaceId: Id, activationStream: Id): View {
    View(dataSpaceId, WorkView(map[], map[], [], map[]), AgentView(map[], map[], map[], map[]),
         EffectView(map[], map[], map[], map[], map[]), map[], map[], NewActivation(activationStream))
  }

  function VersionOf(versions: map<Id, nat>, streamId: Id): nat {
    if streamId in versions then versions[streamId] else 0
  }

  function Max(a: nat, b: nat): nat { if a < b then b else a }

  /** The newest version of a stream that any service has seen. */
  function KnownVersion(v: View, streamId: Id): nat {
    Max(VersionOf(v.versions, streamId), if streamId == v.activation.streamId then v.activation.version else 0)
  }

  // ---- queries shared by the commands and the handlers

  /** Names issued to anyone, and the reserved owner seat. */
  ghost predicate NameRegistered(a: AgentView, name: string) {
    || name == RESERVED_AGENT_NAME
    || (exists k :: k in a.assignments && a.assignments[k].agentName == name)
    || (exists k :: k in a.registrations && a.registrations[k].agentName == name)
  }

  /** Sender, recipient and work references of an agent-to-agent message are all known and agree. */
  ghost predicate ValidAgentMessage(w: WorkView, a: AgentView, n: Notification) {
    && n.senderAgentName.Some? && NameRegistered(a, n.senderAgentName.value)
    && NameRegistered(a, n.recipientAgentName)
    && n.relatedWorkItemId.Some? && n.relatedExecutionId.Some?
    && n.relatedWorkItemId.value in w.items
    && n.relatedExecutionId.value in a.executions
    && a.executions[n.relatedExecutionId.value].workItemId == w.items[n.relatedWorkItemId.value].workItemId
  }

  function NodesById(nodes: seq<Node>): map<Id, Node> {
    if nodes == [] then map[] else NodesById(nodes[..|nodes| - 1])[nodes[|nodes| - 1].nodeId := nodes[|nodes| - 1]]
  }

  function WorkItemsById(items: seq<WorkItem>): map<Id, WorkItem> {
    if items == [] then map[] else WorkItemsById(items[..|items| - 1])[items[|items| - 1].workItemId := items[|items| - 1]]
  }

  function SessionsByRef(sessions: seq<HistorySession>): map<string, HistorySession> {
    if sessions == [] then map[] else SessionsByRef(sessions[..|sessions| - 1])[sessions[|sessions| - 1].sessionRef := sessions[|sessions| - 1]]
  }

  /** Delegation edges that come with a child work item. */
  function ParentEdges(w: WorkItem): seq<WorkEdge> {
    if w.parentWorkItemId.None? then []
    else [WorkEdge(w.parentWorkItemId.value, w.workItemId, DelegatedTo), WorkEdge(w.workItemId, w.parentWorkItemId.value, IntegratedBy)]
  }

  function Without(ids: seq<Id>, id: Id): seq<Id> {
    Filter(ids, (x: Id) => x != id)
  }

  // ---- bulk pauses and revocations

  function PauseIf(x: Execution, affected: bool, reason: string): Execution {
    if affected && x.state == ActiveExecution then x.(state := PausedExecution, pauseReason := Some(reason)) else x
  }

  const INTERVENTION: string := "human_intervention"
  const DISCONNECTED: string := "pilot_host_disconnected"
  const RECONCILE: string := "pilot_receipt_reconciliation_required"

  function PauseWorkExecutions(xs: map<Id, Execution>, workItemId: Id): map<Id, Execution> {
    map k | k in xs :: PauseIf(xs[k], xs[k].workItemId == workItemId, INTERVENTION)
  }

  function PauseHostExecutions(xs: map<Id, Execution>, pilotHostId: Id): map<Id, Execution> {
    map k | k in xs :: PauseIf(xs[k], xs[k].pilotHostId == pilotHostId, DISCONNECTED)
  }

  function RevokeIf(l: EffectLease, workItemId: Id): EffectLease {
    if l.workItemId == workItemId && l.state in {PlannedLease, ActiveLease} then l.(state := RevokedLease) else l
  }

  function RevokeLeases(ls: map<Id, EffectLease>, workItemId: Id): map<Id, EffectLease> {
    map k | k in ls :: RevokeIf(ls[k], workItemId)
  }

  // ---- the handlers

  /** The activation handlers. */
  function ApplyActivation(a: ActivationView, stored: StoredEvent): Result<ActivationView>
    requires stored.event.body.ActivationEvent?
  {
    var e := stored.event;
    var b := a.(version := e.streamVersion);
    match e.body.change
    case HistoryImportVerified(receipt, conversationId) =>
      if conversationId == "" then Err(InvariantViolation)
      else Ok(b.(history := ImportView(Some(receipt), SessionsByRef(receipt.sessions), stored.cursor, Some(conversationId)),
                 stage := HistoryImported, attempt := Ended(a.attempt)))
    case ReorientationStarted => Ok(b.(stage := ReorientationOnly, attempt := Started(e)))
    case ReorientationRetryStarted(_) => Ok(b.(stage := ReorientationOnly, attempt := Started(e)))
    case ReorientationRevisionRetryStarted(_) => Ok(b.(stage := ReorientationOnly, attempt := Started(e)))
    case ReorientationFailed(code) => Ok(b.(attempt := Ended(a.attempt).(error := Some(code))))
    case ReorientationInterrupted => Ok(b.(attempt := Ended(a.attempt).(error := Some(INTERRUPTED))))
    case SessionCheckpointed(session) =>
      if session == "" then Err(InvariantViolation) else Ok(b.(providerSessionId := Some(session)))
    case HistoryQueryResolved(operation) =>
      Ok(b.(evidence := a.evidence.(operations := a.evidence.operations + {operation}, eventIds := a.evidence.eventIds + {e.eventId})))
    case SessionIndexPageVerified(_) => Ok(b)
    case UsageRecorded(i, o) =>
      Ok(b.(evidence := a.evidence.(pilotCalls := a.evidence.pilotCalls + 1, inputTokens := a.evidence.inputTokens + i,
                                    outputTokens := a.evidence.outputTokens + o)))
    case AssessmentAccepted(assessment) =>
      Ok(b.(attempt := Ended(a.attempt), assessment := Some(assessment), stage := AwaitingOwner))
    case RevisionRequested(prior, reason) =>
      if a.assessment.None? || a.assessment.value.assessmentId != prior then Err(InvariantViolation)
      else Ok(b.(assessment := None, attempt := AttemptView(None, false, None, Some(reason)), stage := ReorientationOnly))
    case ActivationApproved(_, at) => Ok(b.(stage := Activated, approvedAt := Some(at)))
  }

  function Started(e: Event): AttemptView {
    AttemptView(None, true, Some(e.streamVersion), None)
  }

  /** The attempt is over; the last error stays. */
  function Ended(t: AttemptView): AttemptView {
    AttemptView(t.error, false, None, None)
  }

  /** The work-graph handlers, as far as they touch the work graph. */
  function ApplyWork(v: WorkView, e: Event): Result<WorkView> {
    match e.body
    case NodeRegistered(node) => Ok(v.(nodes := v.nodes[node.nodeId := node]))
    case WorkItemCreated(w) => Ok(v.(items := v.items[w.workItemId := w], edges := v.edges + ParentEdges(w)))
    case WorkDependencyAdded(edge) => Ok(v.(edges := v.edges + [edge]))
    case WorkGraphImported(g) =>
      Ok(v.(nodes := v.nodes + NodesById(g.nodes), items := v.items + WorkItemsById(g.workItems), edges := v.edges + g.edges))
    case WorkItemDelegated(nodeId) =>
      if e.streamId !in v.items then Err(InvariantViolation)
      else Ok(v.(items := v.items[e.streamId := v.items[e.streamId].(delegatedToNodeId := nodeId, state := Ready)]))
    case WorkItemResumePrepared =>
      if e.streamId !in v.items then Err(InvariantViolation)
      else Ok(v.(items := v.items[e.streamId := v.items[e.streamId].(state := Ready)]))
    case WorkItemCompleted(evidence) =>
      if e.streamId !in v.items then Err(InvariantViolation)
      else Ok(v.(items := v.items[e.streamId := v.items[e.streamId].(state := Completed, evidence := Some(evidence))]))
    case HumanIntervention(_) =>
      if e.streamId !in v.items then Err(InvariantViolation)
      else Ok(v.(items := v.items[e.streamId := v.items[e.streamId].(state := PausedWork)]))
    case FindingRecorded(f) =>
      if f.severity.Advisory? then Ok(v.(findings := v.findings[f.findingId := f]))
      else if f.workItemId !in v.items then Err(InvariantViolation)
      else
        var w := v.items[f.workItemId];
        Ok(v.(findings := v.findings[f.findingId := f],
              items := v.items[w.workItemId := w.(state := Blocked, blockers := w.blockers + [f.findingId])]))
    case RiskAccepted(findingId, _, _) =>
      if findingId !in v.findings || e.streamId !in v.items then Err(InvariantViolation)
      else
        var w := v.items[e.streamId];
        var rest := Without(w.blockers, findingId);
        Ok(v.(findings := v.findings[findingId := v.findings[findingId].(acceptedByS5 := true)],
              items := v.items[e.streamId := w.(state := if rest == [] then Ready else Blocked, blockers := rest)]))
    case _ => Err(InvariantViolation)
  }

  /** The execution, naming and notification handlers. */
  ghost function ApplyAgents(w: WorkView, v: AgentView, e: Event): Result<AgentView> {
    match e.body
    case ExecutionCreated(x) => Ok(v.(executions := v.executions[x.executionId := x]))
    case ExecutionStateChanged(state, reason) =>
      if e.streamId !in v.executions then Err(InvariantViolation)
      else Ok(v.(executions := v.executions[e.streamId := v.executions[e.streamId].(state := state, pauseReason := reason)]))
    case ReceiptRecorded(r) =>
      if e.streamId !in v.executions || !ReceiptMatches(v, e.streamId, r) then Err(InvariantViolation)
      else Ok(v.(executions := v.executions[e.streamId :=
                v.executions[e.streamId].(state := r.state, providerSessionId := r.report.providerSessionId, pauseReason := r.pauseReason)]))
    case PilotHostDisconnected(host) => Ok(v.(executions := PauseHostExecutions(v.executions, host)))
    case AgentNameAssigned(a) =>
      if || (a.assignmentId in v.assignments && v.assignments[a.assignmentId] != a)
         || (exists k :: k in v.assignments && v.assignments[k].agentName == a.agentName && v.assignments[k].assignmentId != a.assignmentId)
         || a.executionId !in v.executions
         || v.executions[a.executionId].agentName.Some?
         || v.executions[a.executionId].workItemId != a.workItemId
      then Err(InvariantViolation)
      else Ok(v.(assignments := v.assignments[a.assignmentId := a],
                 executions := v.executions[a.executionId := v.executions[a.executionId].(agentName := Some(a.agentName))]))
    case AgentIdentityRegistered(r) =>
      if || (r.registrationId in v.registrations && v.registrations[r.registrationId] != r)
         || (r.registrationId !in v.registrations && NameRegistered(v, r.agentName))
         || r.nodeId !in w.nodes
      then Err(InvariantViolation)
      else Ok(v.(registrations := v.registrations[r.registrationId := r]))
    case NotificationDelivered(n) =>
      if || (n.sourceKind.AgentToAgent? && !ValidAgentMessage(w, v, n))
         || (n.notificationId in v.notifications && v.notifications[n.notificationId] != n)
      then Err(InvariantViolation)
      else Ok(v.(notifications := v.notifications[n.notificationId := n]))
    case NotificationPromoted(_, target) =>
      if e.streamId !in v.notifications || target !in w.items then Err(InvariantViolation)
      else
        var n := v.notifications[e.streamId];
        if !n.requiresWorkItem || (n.promotedWorkItemId.Some? && n.promotedWorkItemId.value != target)
        then Err(InvariantViolation)
        else Ok(v.(notifications := v.notifications[e.streamId := n.(promotedWorkItemId := Some(target))]))
    case _ => Err(InvariantViolation)
  }

  /** A recorded receipt names its execution's stream, work item, assignment and agent. */
  predicate ReceiptMatches(v: AgentView, executionId: Id, r: ReceiptRecord)
    requires executionId in v.executions
  {
    && r.executionId == executionId
    && r.workItemId == v.executions[executionId].workItemId
    && (r.assignmentId.Some? ==> r.assignmentId.value in v.assignments && v.assignments[r.assignmentId.value].executionId == executionId)
    && r.agentName == v.executions[executionId].agentName
  }

  /** The grant, budget and effect handlers. */
  function ApplyEffects(v: EffectView, e: Event): Result<EffectView> {
    match e.body
    case CapabilityGranted(g) => Ok(v.(capabilities := v.capabilities[g.grantId := g]))
    case ReferenceGranted(g) => Ok(v.(references := v.references[g.grantId := g]))
    case BudgetReserved(b) => Ok(v.(budgets := v.budgets[b.reservationId := b]))
    case EffectPlanned(l) => Ok(v.(leases := v.leases[l.leaseId := l]))
    case EffectApproved(a) => Ok(v.(approvals := v.approvals[a.leaseId := a]))
    case EffectActivated(state) => SetLease(v, e.streamId, state)
    case EffectResultUnknown(state, _) => SetLease(v, e.streamId, state)
    case EffectReconciled(state, _) => SetLease(v, e.streamId, state)
    case _ => Err(InvariantViolation)
  }

  function SetLease(v: EffectView, leaseId: Id, state: LeaseState): Result<EffectView> {
    if leaseId !in v.leases then Err(InvariantViolation)
    else Ok(v.(leases := v.leases[leaseId := v.leases[leaseId].(state := state)]))
  }

  /** The route handlers. */
  function ApplyRoutes(routes: map<Id, RouteSnapshot>, e: Event): Result<map<Id, RouteSnapshot>> {
    match e.body
    case RouteRegistered(r) => Ok(routes[r.snapshotId := r])
    case RouteSnapshotApproved(approval, state) =>
      if e.streamId !in routes then Err(InvariantViolation)
      else
        var r := routes[e.streamId].(state := state);
        Ok(routes[e.streamId :=
          if approval.S3StarApproval? then r.(s3StarApprovalEvent := Some(e.eventId)) else r.(ownerApprovalEvent := Some(e.eventId))])
    case RoutePublished =>
      if e.streamId !in routes then Err(InvariantViolation)
      else Ok(routes[e.streamId := routes[e.streamId].(state := Published)])
    case RouteRetired(reason, replacement) =>
      if !e.actorType.Human? || e.actorId.None? || e.streamId !in routes || !routes[e.streamId].state.Published?
      then Err(InvariantViolation)
      else if !RetirementOk(routes, routes[e.streamId], reason, replacement) then Err(InvariantViolation)
      else Ok(routes[e.streamId := routes[e.streamId].(state := Retired)])
    case _ => Err(InvariantViolation)
  }

  predicate RetirementOk(routes: map<Id, RouteSnapshot>, retired: RouteSnapshot, reason: RetirementReason, replacement: Option<Id>) {
    if reason.RouteDecommissioned? then replacement.None?
    else replacement.Some? && ReplacementOk(routes, retired, replacement.value)
  }

  /** A replacement differs from the retired snapshot, serves the same route and is approved. */
  predicate ReplacementOk(routes: map<Id, RouteSnapshot>, retired: RouteSnapshot, replacement: Id) {
    && replacement != retired.snapshotId
    && replacement in routes && routes[replacement].routeKey == retired.routeKey
    && routes[replacement].state in {OwnerApproved, Published}
  }

  datatype Area = WorkArea | AgentArea | EffectArea | RouteArea

  function AreaOf(b: EventBody): Area
    requires !b.ActivationEvent?
  {
    match b
    case NodeRegistered(_) | WorkItemCreated(_) | WorkDependencyAdded(_) | WorkGraphImported(_) | WorkItemDelegated(_)
       | WorkItemResumePrepared | WorkItemCompleted(_) | HumanIntervention(_) | FindingRecorded(_) | RiskAccepted(_, _, _) => WorkArea
    case CapabilityGranted(_) | ReferenceGranted(_) | BudgetReserved(_) | EffectPlanned(_) | EffectApproved(_)
       | EffectActivated(_) | EffectResultUnknown(_, _) | EffectReconciled(_, _) => EffectArea
    case RouteRegistered(_) | RouteSnapshotApproved(_, _) | RoutePublished | RouteRetired(_, _) => RouteArea
    case _ => AgentArea
  }

  /** Dispatch on the event type; every Kernel handler also moves the stream version. */
  ghost function Handle(v: View, stored: StoredEvent): Result<View> {
    var e := stored.event;
    if e.body.ActivationEvent? then
      match ApplyActivation(v.activation, stored)
      case Ok(a) => Ok(v.(activation := a))
      case Err(f) => Err(f)
    else
      match HandleArea(v, e)
      case Ok(w) => Ok(w.(versions := v.versions[e.streamId := e.streamVersion]))
      case Err(f) => Err(f)
  }

  ghost function HandleArea(v: View, e: Event): Result<View>
    requires !e.body.ActivationEvent?
  {
    match AreaOf(e.body)
    case WorkArea =>
      (match ApplyWork(v.work, e)
       case Ok(w) => Ok(WorkChange(v, w, e))
       case Err(f) => Err(f))
    case AgentArea =>
      (match ApplyAgents(v.work, v.agents, e)
       case Ok(a) => Ok(v.(agents := a))
       case Err(f) => Err(f))
    case EffectArea =>
      (match ApplyEffects(v.effects, e)
       case Ok(x) => Ok(v.(effects := x))
       case Err(f) => Err(f))
    case RouteArea =>
      match ApplyRoutes(v.routes, e)
      case Ok(r) => Ok(v.(routes := r))
      case Err(f) => Err(f)
  }

  /** A work change; an intervention also pauses executions and revokes leases, an import also marks the activation. */
  function WorkChange(v: View, work: WorkView, e: Event): View {
    match e.body
    case HumanIntervention(_) =>
      v.(work := work,
         agents := v.agents.(executions := PauseWorkExecutions(v.agents.executions, e.streamId)),
         effects := v.effects.(leases := RevokeLeases(v.effects.leases, e.streamId)))
    case WorkGraphImported(g) =>
      v.(work := work, activation := v.activation.(workGraphSnapshotId := Some(g.snapshotId)))
    case _ => v.(work := work)
  }

  /** One projection step: the event must belong to the data space and continue its stream. */
  ghost function Apply(v: View, stored: StoredEvent): Result<View> {
    if stored.event.dataSpaceId != v.dataSpaceId then Err(InvariantViolation)
    else if stored.event.streamVersion != KnownVersion(v, stored.event.streamId) + 1 then Err(InvariantViolation)
    else Handle(v, stored)
  }

  /** Folding the events from a view whose cursor is `from`; cursors must be contiguous. */
  ghost function ReplayFrom(v: View, from: nat, log: seq<StoredEvent>): Result<View>
    requires from <= |log|
    decreases |log| - from
  {
    if from == |log| then Ok(v)
    else if log[from].cursor != from + 1 then Err(InvariantViolation)
    else match Apply(v, log[from])
      case Err(f) => Err(f)
      case Ok(next) => ReplayFrom(next, from + 1, log)
  }

  /** Rebuilding from nothing. */
  ghost function Replay(dataSpaceId: Id, activationStream: Id, log: seq<StoredEvent>): Result<View> {
    ReplayFrom(NewView(dataSpaceId, activationStream), 0, log)
  }

  /** Replaying a longer list is replaying the shorter one and then applying the new event. */
  lemma {:induction false} ReplaySnoc(v: View, from: nat, log: seq<StoredEvent>, stored: StoredEvent)
    requires from <= |log|
    ensures ReplayFrom(v, from, log + [stored]) ==
            match ReplayFrom(v, from, log)
            case Err(f) => Err(f)
            case Ok(mid) => if stored.cursor != |log| + 1 then Err(InvariantViolation) else Apply(mid, stored)
    decreases |log| - from
  {
    var longer := log + [stored];
    if from == |log| {
      assert longer[from] == stored;
      if stored.cursor == |log| + 1 && Apply(v, stored).Ok? {
        assert ReplayFrom(Apply(v, stored).value, from + 1, longer) == Ok(Apply(v, stored).value);
      }
    } else {
      assert longer[from] == log[from];
      if log[from].cursor == from + 1 && Apply(v, log[from]).Ok? {
        ReplaySnoc(Apply(v, log[from]).value, from + 1, log, stored);
      }
    }
  }

  /** Stopping at any prefix and resuming from the state reached there changes nothing. */
  lemma {:induction false} ReplayResumes(v: View, from: nat, mid: nat, log: seq<StoredEvent>)
    requires from <= mid <= |log|
    ensures ReplayFrom(v, from, log) ==
            match ReplayFrom(v, from, log[..mid])
            case Err(f) => Err(f)
            case Ok(w) => ReplayFrom(w, mid, log)
    decreases mid - from
  {
    var front := log[..mid];
    if from < mid {
      assert front[from] == log[from];
      if log[from].cursor == from + 1 && Apply(v, log[from]).Ok? {
        ReplayResumes(Apply(v, log[from]).value, from + 1, mid, log);
      }
    }
  }
}
