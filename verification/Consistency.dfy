/** What every reachable state of the control plane satisfies, and the central law:
    replaying the ledger never raises and rebuilds exactly the live state. */
module Consistency {
  import opened Models
  import opened Events
  import opened Ledger
  import opened Views
  import opened Commands
  import Graph

  // ---- the invariants

  ghost predicate NodesKeyed(nodes: map<Id, Node>) {
    forall k :: k in nodes ==> nodes[k].nodeId == k
  }

  ghost predicate ItemsKeyed(items: map<Id, WorkItem>) {
    forall k :: k in items ==> items[k].workItemId == k
  }

  /** Every edge joins known items. */
  ghost predicate EdgesKnown(edges: seq<WorkEdge>, items: map<Id, WorkItem>) {
    forall i :: 0 <= i < |edges| ==> edges[i].source in items && edges[i].target in items
  }

  ghost predicate FindingsKnown(findings: map<Id, Finding>, items: map<Id, WorkItem>) {
    forall k :: k in findings ==> findings[k].findingId == k && findings[k].workItemId in items
  }

  ghost predicate ExecutionsKnown(xs: map<Id, Execution>, items: map<Id, WorkItem>) {
    forall k :: k in xs ==> xs[k].executionId == k && xs[k].workItemId in items
  }

  ghost predicate NotificationsKeyed(ns: map<Id, Notification>) {
    forall k :: k in ns ==> ns[k].notificationId == k
  }

  /** An assignment names the execution it was made for. */
  ghost predicate AssignmentsLinked(assignments: map<Id, Assignment>, xs: map<Id, Execution>) {
    forall k :: k in assignments ==> AssignmentLinked(assignments[k], k, xs)
  }

  predicate AssignmentLinked(a: Assignment, k: Id, xs: map<Id, Execution>) {
    && a.assignmentId == k && a.executionId in xs
    && xs[a.executionId].agentName == Some(a.agentName) && xs[a.executionId].workItemId == a.workItemId
  }

  /** No two assignments share a name. */
  ghost predicate NamesDistinct(assignments: map<Id, Assignment>) {
    forall j, k :: j in assignments && k in assignments && assignments[j].agentName == assignments[k].agentName ==> j == k
  }

  ghost predicate LeasesKeyed(leases: map<Id, EffectLease>) {
    forall k :: k in leases ==> leases[k].leaseId == k
  }

  ghost predicate RoutesKeyed(routes: map<Id, RouteSnapshot>) {
    forall k :: k in routes ==> routes[k].snapshotId == k
  }

  ghost predicate WorkConsistent(w: WorkView) {
    NodesKeyed(w.nodes) && ItemsKeyed(w.items) && EdgesKnown(w.edges, w.items) && FindingsKnown(w.findings, w.items)
  }

  ghost predicate AgentsConsistent(a: AgentView, items: map<Id, WorkItem>) {
    && ExecutionsKnown(a.executions, items) && NotificationsKeyed(a.notifications)
    && AssignmentsLinked(a.assignments, a.executions) && NamesDistinct(a.assignments)
  }

  /** While reorienting, exactly one of a running attempt, an error and a pending revision holds;
      outside, none of them does. The stages fix which documents exist. */
  predicate ActivationConsistent(a: ActivationView) {
    && (a.attempt.inProgress <==> a.attempt.startedVersion.Some?)
    && (a.history.receipt.Some? <==> !a.stage.Uncommissioned?)
    && (a.history.conversationId.Some? <==> !a.stage.Uncommissioned?)
    && (a.assessment.Some? <==> a.stage.AwaitingOwner? || a.stage.Activated?)
    && (a.approvedAt.Some? <==> a.stage.Activated?)
    && (!a.stage.Uncommissioned? ==> a.workGraphSnapshotId.Some?)
    && (a.stage.ReorientationOnly? ==> ExactlyOne(a.attempt.inProgress, a.attempt.error.Some?, a.attempt.pendingRevision.Some?))
    && (!a.stage.ReorientationOnly? ==> !a.attempt.inProgress && a.attempt.error.None? && a.attempt.pendingRevision.None?)
  }

  predicate ExactlyOne(p: bool, q: bool, r: bool) {
    (p || q || r) && !(p && q) && !(p && r) && !(q && r)
  }

  ghost predicate Consistent(v: View) {
    && WorkConsistent(v.work) && AgentsConsistent(v.agents, v.work.items)
    && LeasesKeyed(v.effects.leases) && RoutesKeyed(v.routes) && ActivationConsistent(v.activation)
  }

  /** Each service's version of a stream is unused or the stream's length, and only one service writes it. */
  ghost predicate StreamInSync(versions: map<Id, nat>, activationStream: Id, activationVersion: nat, log: seq<StoredEvent>, id: Id) {
    var kernel := VersionOf(versions, id);
    var activation := if id == activationStream then activationVersion else 0;
    && (kernel == 0 || activation == 0)
    && kernel + activation == StreamLength(log, id)
  }

  ghost predicate InSync(s: Sys) {
    forall id :: StreamInSync(s.view.versions, s.view.activation.streamId, s.view.activation.version, s.log, id)
  }

  /** The activation service has seen every activation event of the ledger, and they are on its stream. */
  ghost predicate ActivationAuthored(a: ActivationView, log: seq<StoredEvent>) {
    forall d :: d in log && d.event.body.ActivationEvent? ==> d.event.streamId == a.streamId && d.event.streamVersion <= a.version
  }

  /** The Kernel has seen every other event. */
  ghost predicate KernelAuthored(versions: map<Id, nat>, log: seq<StoredEvent>) {
    forall d :: d in log && !d.event.body.ActivationEvent? ==> d.event.streamVersion <= VersionOf(versions, d.event.streamId)
  }

  ghost predicate Inv(s: Sys) {
    && WellFormed(s.view.dataSpaceId, s.log)
    && InSync(s) && KernelAuthored(s.view.versions, s.log) && ActivationAuthored(s.view.activation, s.log)
    && Replay(s.view.dataSpaceId, s.view.activation.streamId, s.log) == Ok(s.view)
    && Consistent(s.view)
  }

  // ---- one step of each area

  lemma {:induction false} NodesByIdKeyed(nodes: seq<Node>)
    ensures NodesKeyed(NodesById(nodes))
  {
    if nodes != [] { NodesByIdKeyed(nodes[..|nodes| - 1]); }
  }

  lemma {:induction false} WorkItemsByIdKeyed(items: seq<WorkItem>)
    ensures forall k :: k in WorkItemsById(items) ==> WorkItemsById(items)[k].workItemId == k && WorkItemsById(items)[k] in items
    ensures forall i :: 0 <= i < |items| ==> items[i].workItemId in WorkItemsById(items)
  {
    if items != [] {
      var front := items[..|items| - 1];
      WorkItemsByIdKeyed(front);
      assert items == front + [items[|items| - 1]];
    }
  }

  /** The work handlers accept admitted events and never drop an item. */
  lemma WorkAccepted(v: View, step: Step, e: Event)
    requires !step.body.ActivationEvent? && AreaOf(step.body).WorkArea?
    requires WorkConsistent(v.work) && AdmitsWork(v, step) && e.body == step.body && e.streamId == step.streamId
    ensures ApplyWork(v.work, e).Ok? && v.work.items.Keys <= ApplyWork(v.work, e).value.items.Keys
  {
    hide NodesKeyed, EdgesKnown;
  }

  lemma WorkKeyed(w: WorkView, e: Event)
    requires ApplyWork(w, e).Ok? && NodesKeyed(w.nodes) && ItemsKeyed(w.items)
    ensures NodesKeyed(ApplyWork(w, e).value.nodes) && ItemsKeyed(ApplyWork(w, e).value.items)
  {
    if e.body.WorkGraphImported? {
      NodesByIdKeyed(e.body.graph.nodes);
      WorkItemsByIdKeyed(e.body.graph.workItems);
    }
  }

  lemma WorkEdgesKnown(v: View, step: Step, e: Event)
    requires !step.body.ActivationEvent? && AreaOf(step.body).WorkArea?
    requires AdmitsWork(v, step) && e.body == step.body && e.streamId == step.streamId
    requires ApplyWork(v.work, e).Ok? && v.work.items.Keys <= ApplyWork(v.work, e).value.items.Keys
    requires EdgesKnown(v.work.edges, v.work.items)
    ensures EdgesKnown(ApplyWork(v.work, e).value.edges, ApplyWork(v.work, e).value.items)
  {
  }

  lemma WorkFindingsKnown(v: View, step: Step, e: Event)
    requires !step.body.ActivationEvent? && AreaOf(step.body).WorkArea?
    requires AdmitsWork(v, step) && e.body == step.body && e.streamId == step.streamId
    requires ApplyWork(v.work, e).Ok? && v.work.items.Keys <= ApplyWork(v.work, e).value.items.Keys
    requires FindingsKnown(v.work.findings, v.work.items)
    ensures FindingsKnown(ApplyWork(v.work, e).value.findings, ApplyWork(v.work, e).value.items)
  {
    hide ImportOk, NewWorkOk, ResumeOk, DependenciesCompleted, Graph.Reaches, Graph.Dependencies, Without;
  }

  /** The work handlers keep the work graph keyed and closed. */
  lemma WorkStep(v: View, step: Step, e: Event)
    requires !step.body.ActivationEvent? && AreaOf(step.body).WorkArea?
    requires WorkConsistent(v.work) && AdmitsWork(v, step) && e.body == step.body && e.streamId == step.streamId
    ensures ApplyWork(v.work, e).Ok? && WorkConsistent(ApplyWork(v.work, e).value)
    ensures v.work.items.Keys <= ApplyWork(v.work, e).value.items.Keys
  {
    hide AdmitsWork, ApplyWork, NodesKeyed, ItemsKeyed, EdgesKnown, FindingsKnown;
    WorkAccepted(v, step, e);
    WorkKeyed(v.work, e);
    WorkEdgesKnown(v, step, e);
    WorkFindingsKnown(v, step, e);
  }

  lemma AgentAccepted(v: View, step: Step, e: Event)
    requires !step.body.ActivationEvent? && AreaOf(step.body).AgentArea?
    requires AgentsConsistent(v.agents, v.work.items) && AdmitsAgents(v, step) && e.body == step.body && e.streamId == step.streamId
    ensures ApplyAgents(v.work, v.agents, e).Ok?
  {
    hide ExecutionsKnown, NotificationsKeyed, NamesDistinct;
  }

  lemma AgentExecutions(v: View, step: Step, e: Event)
    requires !step.body.ActivationEvent? && AreaOf(step.body).AgentArea?
    requires AdmitsAgents(v, step) && e.body == step.body && e.streamId == step.streamId
    requires ExecutionsKnown(v.agents.executions, v.work.items) && NotificationsKeyed(v.agents.notifications)
    requires ApplyAgents(v.work, v.agents, e).Ok?
    ensures ExecutionsKnown(ApplyAgents(v.work, v.agents, e).value.executions, v.work.items)
    ensures NotificationsKeyed(ApplyAgents(v.work, v.agents, e).value.notifications)
  {
  }

  lemma AgentLinks(v: View, step: Step, e: Event)
    requires !step.body.ActivationEvent? && AreaOf(step.body).AgentArea?
    requires AdmitsAgents(v, step) && e.body == step.body && e.streamId == step.streamId
    requires AssignmentsLinked(v.agents.assignments, v.agents.executions) && ApplyAgents(v.work, v.agents, e).Ok?
    ensures AssignmentsLinked(ApplyAgents(v.work, v.agents, e).value.assignments, ApplyAgents(v.work, v.agents, e).value.executions)
  {
    hide ValidAgentMessage, NameRegistered, AssignmentFor;
  }

  lemma AgentNames(v: View, step: Step, e: Event)
    requires !step.body.ActivationEvent? && AreaOf(step.body).AgentArea?
    requires AdmitsAgents(v, step) && e.body == step.body && e.streamId == step.streamId
    requires NamesDistinct(v.agents.assignments) && ApplyAgents(v.work, v.agents, e).Ok?
    ensures NamesDistinct(ApplyAgents(v.work, v.agents, e).value.assignments)
  {
    hide ValidAgentMessage, NameRegistered, AssignmentFor, PauseHostExecutions;
  }

  /** The agent handlers accept admitted events and keep names and executions linked. */
  lemma AgentStep(v: View, step: Step, e: Event)
    requires !step.body.ActivationEvent? && AreaOf(step.body).AgentArea?
    requires AgentsConsistent(v.agents, v.work.items) && AdmitsAgents(v, step) && e.body == step.body && e.streamId == step.streamId
    ensures ApplyAgents(v.work, v.agents, e).Ok?
    ensures AgentsConsistent(ApplyAgents(v.work, v.agents, e).value, v.work.items)
  {
    hide AdmitsAgents, ApplyAgents, ExecutionsKnown, NotificationsKeyed, AssignmentsLinked, NamesDistinct;
    AgentAccepted(v, step, e);
    AgentExecutions(v, step, e);
    AgentLinks(v, step, e);
    AgentNames(v, step, e);
  }

  lemma EffectStep(v: View, step: Step, e: Event)
    requires !step.body.ActivationEvent? && AreaOf(step.body).EffectArea?
    requires LeasesKeyed(v.effects.leases) && AdmitsEffects(v, step) && e.body == step.body && e.streamId == step.streamId
    ensures ApplyEffects(v.effects, e).Ok? && LeasesKeyed(ApplyEffects(v.effects, e).value.leases)
  {
  }

  lemma RouteStep(v: View, step: Step, e: Event)
    requires !step.body.ActivationEvent? && AreaOf(step.body).RouteArea?
    requires RoutesKeyed(v.routes) && AdmitsRoutes(v, step) && e.body == step.body && e.streamId == step.streamId
    requires e.actorType == step.actorType && e.actorId.Some?
    ensures ApplyRoutes(v.routes, e).Ok? && RoutesKeyed(ApplyRoutes(v.routes, e).value)
  {
  }

  /** The activation handlers accept admitted events and keep the protocol invariant. */
  lemma ActivationStep(dataSpaceId: Id, a: ActivationView, step: Step, stored: StoredEvent)
    requires step.body.ActivationEvent? && stored.event.body == step.body
    requires ActivationConsistent(a) && AdmitsActivation(dataSpaceId, a, step)
    ensures ApplyActivation(a, stored).Ok? && ActivationConsistent(ApplyActivation(a, stored).value)
    ensures ApplyActivation(a, stored).value.streamId == a.streamId
    ensures ApplyActivation(a, stored).value.version == stored.event.streamVersion
    ensures ApplyActivation(a, stored).value.workGraphSnapshotId == a.workGraphSnapshotId
  {
  }

  /** An intervention pauses executions without unlinking them. */
  lemma InterventionKeepsLinks(a: AgentView, items: map<Id, WorkItem>, workItemId: Id)
    requires AgentsConsistent(a, items)
    ensures AgentsConsistent(a.(executions := PauseWorkExecutions(a.executions, workItemId)), items)
  {
  }

  lemma GrowingItems(a: AgentView, items: map<Id, WorkItem>, more: map<Id, WorkItem>)
    requires AgentsConsistent(a, items) && items.Keys <= more.Keys
    ensures AgentsConsistent(a, more)
  {
  }

  lemma WorkChangeConsistent(v: View, step: Step, e: Event)
    requires !step.body.ActivationEvent? && AreaOf(step.body).WorkArea?
    requires Consistent(v) && AdmitsWork(v, step) && e.body == step.body && e.streamId == step.streamId
    ensures ApplyWork(v.work, e).Ok? && Consistent(WorkChange(v, ApplyWork(v.work, e).value, e))
  {
    hide ApplyWork, NodesKeyed, ItemsKeyed, EdgesKnown, FindingsKnown, ExecutionsKnown, NotificationsKeyed, AssignmentsLinked, NamesDistinct;
    WorkStep(v, step, e);
    var w := ApplyWork(v.work, e).value;
    GrowingItems(v.agents, v.work.items, w.items);
    InterventionKeepsLinks(v.agents, w.items, e.streamId);
  }

  /** No handler refuses what an admitted command recorded, and the invariants survive it. */
  lemma ConsistentStep(s: Sys, step: Step)
    requires Consistent(s.view) && Admits(s.view, step)
    ensures Handle(s.view, StoredFor(s, step)).Ok?
    ensures Consistent(Handle(s.view, StoredFor(s, step)).value)
  {
    hide AdmitsWork, AdmitsAgents, AdmitsEffects, AdmitsRoutes, AdmitsActivation, ApplyWork, ApplyAgents, ApplyEffects,
      ApplyRoutes, ApplyActivation, WorkConsistent, AgentsConsistent, LeasesKeyed, RoutesKeyed, ActivationConsistent, WorkChange;
    var e := EventOf(s.view, step);
    if step.body.ActivationEvent? {
      ActivationStep(s.view.dataSpaceId, s.view.activation, step, StoredFor(s, step));
    } else {
      match AreaOf(step.body)
      case WorkArea => WorkChangeConsistent(s.view, step, e);
      case AgentArea => AgentStep(s.view, step, e);
      case EffectArea => EffectStep(s.view, step, e);
      case RouteArea => RouteStep(s.view, step, e);
    }
  }

  /** Only the writer's own version of the event's stream moves. */
  lemma VersionsAfter(s: Sys, step: Step)
    requires Handle(s.view, StoredFor(s, step)).Ok?
    ensures var w := Handle(s.view, StoredFor(s, step)).value;
            && w.versions == (if step.body.ActivationEvent? then s.view.versions else s.view.versions[step.streamId := Expected(s.view, step) + 1])
            && w.activation.version == (if step.body.ActivationEvent? then Expected(s.view, step) + 1 else s.view.activation.version)
            && w.dataSpaceId == s.view.dataSpaceId && w.activation.streamId == s.view.activation.streamId
  {
    hide ApplyWork, ApplyAgents, ApplyEffects, ApplyRoutes;
  }

  lemma SyncStep(s: Sys, step: Step)
    requires InSync(s) && Accepted(s, step) && Handle(s.view, StoredFor(s, step)).Ok?
    ensures InSync(Exec(s, step))
    ensures KnownVersion(s.view, step.streamId) == Expected(s.view, step)
  {
    hide Handle, AdmitsWork, AdmitsAgents, AdmitsEffects, AdmitsRoutes;
    var stored := StoredFor(s, step);
    VersionsAfter(s, step);
    var a := s.view.activation;
    assert StreamInSync(s.view.versions, a.streamId, a.version, s.log, step.streamId);
    forall id ensures StreamInSync(Exec(s, step).view.versions, a.streamId, Exec(s, step).view.activation.version, Exec(s, step).log, id) {
      FilterSnoc(s.log, stored, OnStream(id));
      assert StreamInSync(s.view.versions, a.streamId, a.version, s.log, id);
    }
  }

  lemma AuthoredStep(s: Sys, step: Step)
    requires KernelAuthored(s.view.versions, s.log) && ActivationAuthored(s.view.activation, s.log)
    requires Accepted(s, step) && Handle(s.view, StoredFor(s, step)).Ok?
    ensures KernelAuthored(Exec(s, step).view.versions, Exec(s, step).log) && ActivationAuthored(Exec(s, step).view.activation, Exec(s, step).log)
  {
    hide Handle, AdmitsWork, AdmitsAgents, AdmitsEffects, AdmitsRoutes;
    VersionsAfter(s, step);
  }

  /** Every command, accepted or not, keeps the invariants. */
  lemma InvStep(s: Sys, step: Step)
    requires Inv(s)
    ensures Inv(Exec(s, step))
    ensures Exec(s, step).view.dataSpaceId == s.view.dataSpaceId
    ensures Exec(s, step).view.activation.streamId == s.view.activation.streamId
  {
    hide Admits, Consistent, Handle, WellFormed, InSync, KernelAuthored, ActivationAuthored, OutcomeOf, ReplayFrom;
    if Accepted(s, step) {
      var stored := StoredFor(s, step);
      ConsistentStep(s, step);
      VersionsAfter(s, step);
      SyncStep(s, step);
      AuthoredStep(s, step);
      AppendKeepsWellFormed(s.view.dataSpaceId, s.log, stored.event, Expected(s.view, step));
      ReplaySnoc(NewView(s.view.dataSpaceId, s.view.activation.streamId), 0, s.log, stored);
    }
  }

  lemma InvStart(dataSpaceId: Id, activationStream: Id)
    ensures Inv(Start(dataSpaceId, activationStream))
  {
  }

  lemma {:induction false} InvRun(dataSpaceId: Id, activationStream: Id, steps: seq<Step>)
    ensures var s := Run(Start(dataSpaceId, activationStream), steps);
            Inv(s) && s.view.dataSpaceId == dataSpaceId && s.view.activation.streamId == activationStream
  {
    hide Inv, Exec;
    if steps == [] {
      InvStart(dataSpaceId, activationStream);
    } else {
      InvRun(dataSpaceId, activationStream, steps[..|steps| - 1]);
      InvStep(Run(Start(dataSpaceId, activationStream), steps[..|steps| - 1]), steps[|steps| - 1]);
    }
  }

  // ---- the law

  /** For every session of commands, accepted or rejected, a fresh projection over the ledger
      never raises and rebuilds exactly the live views, edge list, activation and versions. */
  lemma LiveEqualsReplay(dataSpaceId: Id, activationStream: Id, steps: seq<Step>)
    ensures var s := Run(Start(dataSpaceId, activationStream), steps);
            Replay(dataSpaceId, activationStream, s.log) == Ok(s.view)
  {
    hide Exec, Consistent, WellFormed, InSync, Replay;
    InvRun(dataSpaceId, activationStream, steps);
  }

  lemma ReachableInv(s: Sys)
    requires Reachable(s)
    ensures Inv(s)
  {
    hide Inv, Exec;
    var steps :| Run(Start(s.view.dataSpaceId, s.view.activation.streamId), steps) == s;
    InvRun(s.view.dataSpaceId, s.view.activation.streamId, steps);
  }

  /** Facts about the work graph and the agents that hold in every reachable state. */
  lemma KnownReferences(s: Sys)
    requires Reachable(s)
    ensures WorkConsistent(s.view.work) && AgentsConsistent(s.view.agents, s.view.work.items)
    ensures RoutesKeyed(s.view.routes)
  {
    hide Reachable, WellFormed, InSync, Replay, WorkConsistent, AgentsConsistent, RoutesKeyed, KernelAuthored, ActivationAuthored;
    ReachableInv(s);
  }

  lemma ReachableStep(s: Sys, step: Step)
    requires Reachable(s)
    ensures Reachable(Exec(s, step))
  {
    hide Inv, Exec;
    var d, a := s.view.dataSpaceId, s.view.activation.streamId;
    var steps :| Run(Start(d, a), steps) == s;
    InvRun(d, a, steps);
    InvStep(s, step);
    assert (steps + [step])[..|steps|] == steps;
    assert Run(Start(d, a), steps + [step]) == Exec(s, step);
  }

  lemma ReachableStart(dataSpaceId: Id, activationStream: Id)
    ensures Reachable(Start(dataSpaceId, activationStream))
  {
    hide Exec;
    assert Run(Start(dataSpaceId, activationStream), []) == Start(dataSpaceId, activationStream);
  }

  /** Running a session of commands reaches a reachable state. */
  lemma RunReachable(dataSpaceId: Id, activationStream: Id, steps: seq<Step>)
    ensures Reachable(Run(Start(dataSpaceId, activationStream), steps))
  {
    hide Exec, Inv, Run;
    InvRun(dataSpaceId, activationStream, steps);
  }

  /** A writer in step with the ledger is never told that its event is a duplicate: whatever key
      it uses, the event is appended or refused. */
  lemma NeverDuplicate(s: Sys, step: Step)
    requires Inv(s) && Admits(s.view, step)
    ensures !OutcomeOf(s.view.dataSpaceId, s.log, EventOf(s.view, step), Expected(s.view, step)).Duplicate?
  {
    hide AdmitsWork, AdmitsAgents, AdmitsEffects, AdmitsRoutes, Consistent, WellFormed, InSync, Replay, ReplayFrom;
    assert forall d :: d in s.log ==> d.event != EventOf(s.view, step);
  }

  /** A command whose key was used before records nothing, whatever it asks for. */
  lemma UsedKeyRecordsNothing(s: Sys, step: Step, d: StoredEvent)
    requires Inv(s) && d in s.log && d.event.idempotencyKey == step.key
    ensures !Accepted(s, step) && Exec(s, step) == s
  {
    hide Admits, Consistent, WellFormed, InSync, Replay, ReplayFrom, Handle, KernelAuthored, ActivationAuthored;
    if Admits(s.view, step) {
      NeverDuplicate(s, step);
      assert KeyHolder(s.log, EventOf(s.view, step).idempotencyKey).Some?;
    }
  }
}
