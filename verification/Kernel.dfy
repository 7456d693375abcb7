/** The Kernel: it keeps its dictionaries in fields and updates them in place after each
    append. Every command is proved to move the whole control plane as `Commands.Exec` says,
    that is, to the very state the projection derives from the recorded event. */
module KernelService {
  import opened Models
  import opened Events
  import opened Ledger
  import opened Views
  import opened Commands
  import opened Consistency
  import opened Activation
  import Graph

  /** The command answered `ok` exactly when it was accepted, and moved the system as specified. */
  ghost predicate Did(ok: bool, s: Sys, step: Step, next: Sys) {
    ok == Accepted(s, step) && next == Exec(s, step)
  }

  // ---- from accepted steps to new views, area by area

  /** The system after its event was appended and its area changed to `view`. */
  ghost predicate Extends(s: Sys, step: Step, view: View, next: Sys) {
    next == Sys(view.(versions := s.view.versions[step.streamId := Expected(s.view, step) + 1]), s.log + [StoredFor(s, step)])
  }

  lemma RejectedUnchanged(s: Sys, step: Step)
    requires !Accepted(s, step)
    ensures Did(false, s, step, s)
  {
    hide Accepted, Handle;
  }

  lemma NotAdmitted(s: Sys, step: Step)
    requires !Admits(s.view, step)
    ensures Did(false, s, step, s)
  {
    hide Admits, Handle, OutcomeOf;
  }

  lemma WorkDone(s: Sys, step: Step, work: WorkView, next: Sys)
    requires Accepted(s, step) && !step.body.ActivationEvent? && AreaOf(step.body).WorkArea?
    requires ApplyWork(s.view.work, EventOf(s.view, step)) == Ok(work)
    requires Extends(s, step, WorkChange(s.view, work, EventOf(s.view, step)), next)
    ensures Did(true, s, step, next)
  {
    hide Accepted, ApplyWork, ApplyAgents, ApplyEffects, ApplyRoutes, ApplyActivation, WorkChange;
  }

  lemma InterventionDone(s: Sys, step: Step, item: WorkItem, next: Sys)
    requires Accepted(s, step) && step.body.HumanIntervention?
    requires step.streamId in s.view.work.items && item == s.view.work.items[step.streamId].(state := PausedWork)
    requires next.log == s.log + [StoredFor(s, step)]
    requires next.view == s.view.(
      work := s.view.work.(items := s.view.work.items[step.streamId := item]),
      agents := s.view.agents.(executions := PauseWorkExecutions(s.view.agents.executions, step.streamId)),
      effects := s.view.effects.(leases := RevokeLeases(s.view.effects.leases, step.streamId)),
      versions := s.view.versions[step.streamId := Expected(s.view, step) + 1])
    ensures Did(true, s, step, next)
  {
    hide Accepted, ApplyAgents, ApplyEffects, ApplyRoutes, ApplyActivation, PauseWorkExecutions, RevokeLeases;
  }

  lemma RiskAdmits(v: View, step: Step)
    requires step.body.RiskAccepted? && step.actorType.Human? && step.actorId.Some?
    requires step.body.findingId in v.work.findings && step.streamId == v.work.findings[step.body.findingId].workItemId
    ensures Admits(v, step) <==> step.body.s5NodeId == v.work.findings[step.body.findingId].nodeId
    ensures Correlation(v, step) == Some(step.streamId)
  {
    hide AdmitsAgents, AdmitsEffects, AdmitsRoutes, AdmitsActivation;
  }

  lemma RiskApplied(w: WorkView, e: Event)
    requires e.body.RiskAccepted? && e.body.findingId in w.findings && e.streamId in w.items
    ensures var rest := Without(w.items[e.streamId].blockers, e.body.findingId);
            ApplyWork(w, e) == Ok(w.(
              findings := w.findings[e.body.findingId := w.findings[e.body.findingId].(acceptedByS5 := true)],
              items := w.items[e.streamId := w.items[e.streamId].(state := if rest == [] then Ready else Blocked, blockers := rest)]))
  {
    hide Without;
  }

  lemma KnownFinding(s: Sys, findingId: Id)
    requires Reachable(s) && findingId in s.view.work.findings
    ensures var id := s.view.work.findings[findingId].workItemId; id in s.view.work.items && s.view.work.items[id].workItemId == id
  {
    hide Reachable, AgentsConsistent, RoutesKeyed, NodesKeyed, EdgesKnown;
    KnownReferences(s);
  }

  lemma InterventionAdmits(v: View, step: Step)
    requires step.body.HumanIntervention? && step.actorType.Human? && step.actorId.Some?
    ensures Admits(v, step) <==> step.streamId in v.work.items
    ensures Correlation(v, step) == Some(step.streamId)
  {
    hide AdmitsAgents, AdmitsEffects, AdmitsRoutes, AdmitsActivation;
  }

  lemma AgentDone(s: Sys, step: Step, agents: AgentView, next: Sys)
    requires Accepted(s, step) && !step.body.ActivationEvent? && AreaOf(step.body).AgentArea?
    requires ApplyAgents(s.view.work, s.view.agents, EventOf(s.view, step)) == Ok(agents)
    requires Extends(s, step, s.view.(agents := agents), next)
    ensures Did(true, s, step, next)
  {
    hide Accepted, ApplyWork, ApplyAgents, ApplyEffects, ApplyRoutes, ApplyActivation, WorkChange;
  }

  lemma EffectDone(s: Sys, step: Step, effects: EffectView, next: Sys)
    requires Accepted(s, step) && !step.body.ActivationEvent? && AreaOf(step.body).EffectArea?
    requires ApplyEffects(s.view.effects, EventOf(s.view, step)) == Ok(effects)
    requires Extends(s, step, s.view.(effects := effects), next)
    ensures Did(true, s, step, next)
  {
    hide Accepted, ApplyWork, ApplyAgents, ApplyEffects, ApplyRoutes, ApplyActivation, WorkChange;
  }

  lemma RouteDone(s: Sys, step: Step, routes: map<Id, RouteSnapshot>, next: Sys)
    requires Accepted(s, step) && !step.body.ActivationEvent? && AreaOf(step.body).RouteArea?
    requires ApplyRoutes(s.view.routes, EventOf(s.view, step)) == Ok(routes)
    requires Extends(s, step, s.view.(routes := routes), next)
    ensures Did(true, s, step, next)
  {
    hide Accepted, ApplyWork, ApplyAgents, ApplyEffects, ApplyRoutes, ApplyActivation, WorkChange;
  }

  lemma DoneStaysReachable(ok: bool, s: Sys, step: Step, next: Sys)
    requires Reachable(s) && Did(ok, s, step, next)
    ensures Reachable(next)
  {
    hide Accepted, Reachable, Exec;
    ReachableStep(s, step);
  }

  /** An execution has at most one assignment, so every way of looking it up finds the same. */
  lemma OneAssignment(a: AgentView, items: map<Id, WorkItem>, executionId: Id, k: Id)
    requires AgentsConsistent(a, items) && k in a.assignments && a.assignments[k].executionId == executionId
    ensures AssignmentFor(a.assignments, executionId) == Some(k)
  {
    var j := AssignmentFor(a.assignments, executionId).value;
    assert AssignmentLinked(a.assignments[j], j, a.executions) && AssignmentLinked(a.assignments[k], k, a.executions);
  }

  lemma NotADuplicate(s: Sys, step: Step)
    requires Reachable(s) && Admits(s.view, step)
    ensures !OutcomeOf(s.view.dataSpaceId, s.log, EventOf(s.view, step), Expected(s.view, step)).Duplicate?
    ensures Accepted(s, step) ==> OutcomeOf(s.view.dataSpaceId, s.log, EventOf(s.view, step), Expected(s.view, step))
                                  == Appended(|s.log| + 1, Expected(s.view, step) + 1)
  {
    hide Reachable, Inv, Admits;
    ReachableInv(s);
    NeverDuplicate(s, step);
  }

  lemma LogAfter(s: Sys, step: Step)
    requires Admits(s.view, step)
    ensures AfterAppend(s.view.dataSpaceId, s.log, EventOf(s.view, step), Expected(s.view, step))
            == if Accepted(s, step) then s.log + [StoredFor(s, step)] else s.log
  {
    hide Admits;
  }

  class Kernel {
    const dataSpaceId: Id
    const ledger: InMemoryLedger
    const activation: ActivationService
    var work: WorkView
    var agents: AgentView
    var effects: EffectView
    var routes: map<Id, RouteSnapshot>
    var versions: map<Id, nat>

    ghost function Live(): View
      reads this, activation
    {
      View(dataSpaceId, work, agents, effects, routes, versions, activation.View())
    }

    /** The live views with one stream a version further. */
    ghost function Advanced(streamId: Id): View
      reads this, activation
    {
      Live().(versions := versions[streamId := VersionOf(versions, streamId) + 1])
    }

    /** The live views together with the ledger behind them. */
    ghost function State(): Sys
      reads this, activation, ledger
    {
      Sys(Live(), ledger.events)
    }

    /** The state is one that a session of commands from empty services leads to. */
    ghost predicate Valid()
      reads this, activation, ledger
    {
      && activation.ledger == ledger && ledger.dataSpaceId == dataSpaceId && activation.dataSpaceId == dataSpaceId
      && ledger.Valid() && Reachable(State())
    }

    constructor (dataSpaceId: Id, ledger: InMemoryLedger, activation: ActivationService)
      ensures this.dataSpaceId == dataSpaceId && this.ledger == ledger && this.activation == activation
      ensures work == WorkView(map[], map[], [], map[]) && agents == AgentView(map[], map[], map[], map[])
      ensures effects == EffectView(map[], map[], map[], map[], map[]) && routes == map[] && versions == map[]
    {
      this.dataSpaceId, this.ledger, this.activation := dataSpaceId, ledger, activation;
      work, agents := WorkView(map[], map[], [], map[]), AgentView(map[], map[], map[], map[]);
      effects, routes, versions := EffectView(map[], map[], map[], map[], map[]), map[], map[];
    }

    /** Appends the event of an admitted command with the version this Kernel believes in. */
    method Record(step: Step, correlation: Option<Id>) returns (ok: bool)
      requires Valid() && !step.body.ActivationEvent? && Admits(Live(), step)
      requires correlation == Correlation(Live(), step)
      modifies ledger, `versions
      ensures ledger.Valid()
      ensures ok == Accepted(old(State()), step)
      ensures ok ==> ledger.events == old(ledger.events) + [StoredFor(old(State()), step)]
                     && versions == old(versions)[step.streamId := Expected(old(Live()), step) + 1]
      ensures !ok ==> ledger.events == old(ledger.events) && versions == old(versions)
    {
      hide Reachable, Indexed, Admits, OutcomeOf, AfterAppend, Correlation;
      ghost var s := State();
      NotADuplicate(s, step);
      LogAfter(s, step);
      var expected := VersionOf(versions, step.streamId);
      var outcome := ledger.Append(Envelope(dataSpaceId, step, expected, correlation), expected);
      match outcome
      case Appended(_, streamVersion) =>
        versions := versions[step.streamId := streamVersion];
        return true;
      case Refused(_) => return false;
    }

    /** Registers a node under a known parent of the same data space. */
    method RegisterNode(node: Node, c: Caller) returns (ok: bool)
      requires Valid()
      modifies this, ledger
      ensures Valid()
      ensures Did(ok, old(State()), StepBy(c, node.nodeId, NodeRegistered(node), Human, NoContext), State())
      ensures ok ==> Live() == old(Advanced(node.nodeId)).(work := old(work).(nodes := old(work).nodes[node.nodeId := node]))
    {
      hide Reachable, Indexed, OutcomeOf, Accepted, Exec, Did, ActivationService.View, AdmitsAgents, AdmitsEffects, AdmitsRoutes, AdmitsActivation;
      ghost var s := State();
      var step := StepBy(c, node.nodeId, NodeRegistered(node), Human, NoContext);
      if !ValidNode(node) || node.dataSpaceId != dataSpaceId || node.nodeId in work.nodes
         || (node.parentNodeId.Some? && (node.parentNodeId.value !in work.nodes || work.nodes[node.parentNodeId.value].dataSpaceId != node.dataSpaceId)) {
        NotAdmitted(s, step);
        return false;
      }
      ok := Record(step, Some(node.nodeId));
      if !ok {
        RejectedUnchanged(s, step);
        return;
      }
      work := work.(nodes := work.nodes[node.nodeId := node]);
      WorkDone(s, step, work, State());
      DoneStaysReachable(true, s, step, State());
    }

    /** Creates a work item and its delegation edges; an existing identity is overwritten. */
    method CreateWorkItem(item: WorkItem, c: Caller) returns (ok: bool)
      requires Valid()
      modifies this, ledger
      ensures Valid()
      ensures Did(ok, old(State()), StepBy(c, item.workItemId, WorkItemCreated(item), Human, NoContext), State())
      ensures ok ==> Live() == old(Advanced(item.workItemId)).(work := old(work).(
                       items := old(work).items[item.workItemId := item],
                       edges := match item.parentWorkItemId
                         case None => old(work).edges
                         case Some(parent) =>
                           old(work).edges + [WorkEdge(parent, item.workItemId, DelegatedTo), WorkEdge(item.workItemId, parent, IntegratedBy)]))
    {
      hide Reachable, Indexed, OutcomeOf, Accepted, Exec, Did, ActivationService.View, AdmitsAgents, AdmitsEffects, AdmitsRoutes, AdmitsActivation;
      ghost var s := State();
      var step := StepBy(c, item.workItemId, WorkItemCreated(item), Human, NoContext);
      if item.dataSpaceId != dataSpaceId || item.state !in {Proposed, Ready}
         || item.evidence.Some? || item.blockers != [] || item.acceptanceCriteria == []
         || item.ownerNodeId !in work.nodes || item.delegatedToNodeId !in work.nodes || item.integrationOwnerNodeId !in work.nodes
         || (item.parentWorkItemId.Some?
             && (item.parentWorkItemId.value !in work.items
                 || work.items[item.parentWorkItemId.value].integrationOwnerNodeId != item.integrationOwnerNodeId)) {
        NotAdmitted(s, step);
        return false;
      }
      ok := Record(step, Some(item.workItemId));
      if !ok {
        RejectedUnchanged(s, step);
        return;
      }
      work := work.(items := work.items[item.workItemId := item]);
      if item.parentWorkItemId.Some? {
        var parent := item.parentWorkItemId.value;
        work := work.(edges := work.edges + [WorkEdge(parent, item.workItemId, DelegatedTo), WorkEdge(item.workItemId, parent, IntegratedBy)]);
      } else {
        assert work.edges + ParentEdges(item) == work.edges;
      }
      WorkDone(s, step, work, State());
      DoneStaysReachable(true, s, step, State());
    }

    /** Adds a dependency unless the target already reaches the source. */
    method AddDependency(workItemId: Id, dependsOnId: Id, c: Caller) returns (ok: bool)
      requires Valid()
      modifies this, ledger
      ensures Valid()
      ensures Did(ok, old(State()), StepBy(c, workItemId, WorkDependencyAdded(WorkEdge(workItemId, dependsOnId, DependsOn)), Human, NoContext), State())
      ensures ok ==> Live() == old(Advanced(workItemId)).(work := old(work).(edges := old(work).edges + [WorkEdge(workItemId, dependsOnId, DependsOn)]))
    {
      hide Reachable, Indexed, OutcomeOf, Accepted, Exec, Did, Graph.Reaches, Graph.Dependencies, ActivationService.View, AdmitsAgents, AdmitsEffects, AdmitsRoutes, AdmitsActivation;
      ghost var s := State();
      var step := StepBy(c, workItemId, WorkDependencyAdded(WorkEdge(workItemId, dependsOnId, DependsOn)), Human, NoContext);
      var edge := WorkEdge(workItemId, dependsOnId, DependsOn);
      if workItemId !in work.items || dependsOnId !in work.items || workItemId == dependsOnId || edge in work.edges {
        NotAdmitted(s, step);
        return false;
      }
      var cycle := Graph.SearchReaches(work.edges, workItemId, dependsOnId);
      if cycle {
        NotAdmitted(s, step);
        return false;
      }
      ok := Record(step, Some(workItemId));
      if !ok {
        RejectedUnchanged(s, step);
        return;
      }
      work := work.(edges := work.edges + [edge]);
      WorkDone(s, step, work, State());
      DoneStaysReachable(true, s, step, State());
    }

    /** The checks of an import, in the order of the command. */
    method ImportChecks(graph: WorkGraph) returns (ok: bool)
      requires activation.workGraphSnapshotId.None?
      ensures ok == ImportOk(Live(), graph)
    {
      hide ValidWorkGraph, ImportNodesOk, ImportItemsOk, EdgesWithin, WorkItemsById;
      return ValidWorkGraph(graph) && activation.stage.Uncommissioned?
        && graph.dataSpaceId == dataSpaceId && graph.digest == DigestOf(graph)
        && ImportNodesOk(work.nodes, dataSpaceId, graph) && ImportItemsOk(work, dataSpaceId, graph)
        && EdgesWithin(graph.edges, WorkItemsById(graph.workItems).Keys);
    }

    /** Imports the current work graph once. A repeated import of the stored graph is answered `ok`
        without an event; another graph under the imported identity is refused. */
    method ImportWorkGraph(graph: WorkGraph, c: Caller) returns (ok: bool)
      requires Valid()
      modifies this, ledger, activation`workGraphSnapshotId
      ensures Valid()
      ensures var step := StepBy(c, graph.snapshotId, WorkGraphImported(graph), Human, NoContext);
              if old(activation.workGraphSnapshotId).None? then Did(ok, old(State()), step, State())
              else
                var stored := StreamEvents(ledger.events, graph.snapshotId);
                && State() == old(State())
                && ok == (old(activation.workGraphSnapshotId) == Some(graph.snapshotId)
                          && stored != [] && stored[0].event.body == WorkGraphImported(graph))
      ensures ok && old(activation.workGraphSnapshotId).None? ==>
                Live() == old(Advanced(graph.snapshotId)).(
                  work := old(work).(nodes := old(work).nodes + NodesById(graph.nodes), items := old(work).items + WorkItemsById(graph.workItems),
                                     edges := old(work).edges + graph.edges),
                  activation := old(activation.View()).(workGraphSnapshotId := Some(graph.snapshotId)))
    {
      hide Reachable, Indexed, OutcomeOf, Accepted, Exec, Did, AdmitsAgents, AdmitsEffects, AdmitsRoutes, AdmitsActivation, ImportOk;
      ghost var s := State();
      var step := StepBy(c, graph.snapshotId, WorkGraphImported(graph), Human, NoContext);
      if activation.workGraphSnapshotId.Some? {
        if activation.workGraphSnapshotId.value != graph.snapshotId {
          return false;
        }
        var events := ledger.Stream(graph.snapshotId, 0, 1);
        return events.Ok? && events.value != [] && events.value[0].event.body == WorkGraphImported(graph);
      }
      var importable := ImportChecks(graph);
      if !importable {
        NotAdmitted(s, step);
        return false;
      }
      ok := Record(step, Some(graph.snapshotId));
      if !ok {
        RejectedUnchanged(s, step);
        return;
      }
      work := work.(nodes := work.nodes + NodesById(graph.nodes));
      work := work.(items := work.items + WorkItemsById(graph.workItems));
      work := work.(edges := work.edges + graph.edges);
      activation.workGraphSnapshotId := Some(graph.snapshotId);
      WorkDone(s, step, work, State());
      DoneStaysReachable(true, s, step, State());
    }

    /** Hands a proposed or ready item without executions to another node. */
    method DelegateWorkItem(workItemId: Id, nodeId: Id, c: Caller) returns (ok: bool)
      requires Valid()
      modifies this, ledger
      ensures Valid()
      ensures Did(ok, old(State()), StepBy(c, workItemId, WorkItemDelegated(nodeId), Human, NoContext), State())
      ensures ok ==> workItemId in old(work).items
      ensures ok ==> Live() == old(Advanced(workItemId)).(work := old(work).(items := old(work).items[workItemId := old(work).items[workItemId].(delegatedToNodeId := nodeId, state := Ready)]))
    {
      hide Reachable, Indexed, OutcomeOf, Accepted, Exec, Did, ActivationService.View, AdmitsAgents, AdmitsEffects, AdmitsRoutes, AdmitsActivation;
      ghost var s := State();
      var step := StepBy(c, workItemId, WorkItemDelegated(nodeId), Human, NoContext);
      if workItemId !in work.items || nodeId !in work.nodes || work.items[workItemId].state !in {Proposed, Ready}
         || exists k :: k in agents.executions && agents.executions[k].workItemId == workItemId {
        NotAdmitted(s, step);
        return false;
      }
      ok := Record(step, Some(workItemId));
      if !ok {
        RejectedUnchanged(s, step);
        return;
      }
      work := work.(items := work.items[workItemId := work.items[workItemId].(delegatedToNodeId := nodeId, state := Ready)]);
      WorkDone(s, step, work, State());
      DoneStaysReachable(true, s, step, State());
    }

    /** The checks of an owner-confirmed resume, without recording anything. */
    method ValidateResume(workItemId: Id) returns (ok: bool)
      ensures ok == ResumeOk(Live(), workItemId)
    {
      if !activation.stage.AwaitingOwner? {
        return false;
      }
      if activation.assessment.None? || workItemId !in activation.assessment.value.resumeWorkItemIds {
        return false;
      }
      if workItemId !in work.items || work.items[workItemId].blockers != [] {
        return false;
      }
      return work.items[workItemId].state in {Proposed, Ready, PausedWork} && work.items[workItemId].delegatedToNodeId in work.nodes;
    }

    /** Makes an assessed item ready again. */
    method PrepareResume(workItemId: Id, c: Caller) returns (ok: bool)
      requires Valid()
      modifies this, ledger
      ensures Valid()
      ensures Did(ok, old(State()), StepBy(c, workItemId, WorkItemResumePrepared, Human, NoContext), State())
      ensures ok ==> workItemId in old(work).items
      ensures ok ==> Live() == old(Advanced(workItemId)).(work := old(work).(items := old(work).items[workItemId := old(work).items[workItemId].(state := Ready)]))
    {
      hide Reachable, Indexed, OutcomeOf, Accepted, Exec, Did, ActivationService.View, AdmitsAgents, AdmitsEffects, AdmitsRoutes, AdmitsActivation;
      ghost var s := State();
      var step := StepBy(c, workItemId, WorkItemResumePrepared, Human, NoContext);
      var valid := ValidateResume(workItemId);
      if !valid {
        NotAdmitted(s, step);
        return false;
      }
      ok := Record(step, Some(workItemId));
      if !ok {
        RejectedUnchanged(s, step);
        return;
      }
      work := work.(items := work.items[workItemId := work.items[workItemId].(state := Ready)]);
      WorkDone(s, step, work, State());
      DoneStaysReachable(true, s, step, State());
    }

    /** Some dependency of the item is not completed. */
    method OpenDependency(workItemId: Id) returns (open: bool)
      requires EdgesKnown(work.edges, work.items)
      ensures open <==> !DependenciesCompleted(Live(), workItemId)
    {
      return exists i :: 0 <= i < |work.edges| && work.edges[i].source == workItemId && work.edges[i].kind.DependsOn?
                         && !work.items[work.edges[i].target].state.Completed?;
    }

    /** Completes an unblocked item whose gates are satisfied and whose dependencies are completed. */
    method CompleteWorkItem(workItemId: Id, evidence: CompletionEvidence, c: Caller) returns (ok: bool)
      requires Valid()
      modifies this, ledger
      ensures Valid()
      ensures Did(ok, old(State()), StepBy(c, workItemId, WorkItemCompleted(evidence), Human, NoContext), State())
      ensures ok ==> workItemId in old(work).items
      ensures ok ==> Live() == old(Advanced(workItemId)).(work := old(work).(items := old(work).items[workItemId := old(work).items[workItemId].(state := Completed, evidence := Some(evidence))]))
    {
      hide Reachable, Indexed, OutcomeOf, Accepted, Exec, Did, ActivationService.View, AdmitsAgents, AdmitsEffects, AdmitsRoutes, AdmitsActivation;
      hide AgentsConsistent, RoutesKeyed, NodesKeyed, ItemsKeyed, EdgesKnown, FindingsKnown, DependenciesCompleted;
      ghost var s := State();
      var step := StepBy(c, workItemId, WorkItemCompleted(evidence), Human, NoContext);
      KnownReferences(s);
      var open := OpenDependency(workItemId);
      if workItemId !in work.items || work.items[workItemId].blockers != [] || !GatesSatisfied(evidence) || open {
        NotAdmitted(s, step);
        return false;
      }
      ok := Record(step, Some(workItemId));
      if !ok {
        RejectedUnchanged(s, step);
        return;
      }
      work := work.(items := work.items[workItemId := work.items[workItemId].(state := Completed, evidence := Some(evidence))]);
      WorkDone(s, step, work, State());
      DoneStaysReachable(true, s, step, State());
    }

    /** Pauses the item and its active executions and revokes its planned and active leases. */
    method Intervene(workItemId: Id, reason: string, c: Caller) returns (ok: bool)
      requires Valid()
      modifies this, ledger
      ensures Valid()
      ensures Did(ok, old(State()), StepBy(c, workItemId, HumanIntervention(reason), Human, NoContext), State())
      ensures ok ==> workItemId in old(work).items
      ensures ok ==> Live() == old(Advanced(workItemId)).(
                       work := old(work).(items := old(work).items[workItemId := old(work).items[workItemId].(state := PausedWork)]),
                       agents := agents, effects := effects)
      ensures ok ==> agents == old(agents).(executions := agents.executions) && PausedBy(old(agents).executions, agents.executions, workItemId)
      ensures ok ==> effects == old(effects).(leases := effects.leases) && RevokedBy(old(effects).leases, effects.leases, workItemId)
    {
      hide Reachable, Indexed, OutcomeOf, Accepted, Exec, Did, AdmitsAgents, AdmitsEffects, AdmitsRoutes, AdmitsActivation, ActivationService.View, PauseWorkExecutions, RevokeLeases, ApplyWork, WorkChange,
        AdmitsWork, Admits, Correlation, PausedBy, RevokedBy;
      ghost var s := State();
      var step := StepBy(c, workItemId, HumanIntervention(reason), Human, NoContext);
      InterventionAdmits(Live(), step);
      if workItemId !in work.items {
        NotAdmitted(s, step);
        return false;
      }
      ok := Record(step, Some(workItemId));
      if !ok {
        RejectedUnchanged(s, step);
        return;
      }
      work := work.(items := work.items[workItemId := work.items[workItemId].(state := PausedWork)]);
      WorkPauses(agents.executions, workItemId);
      var paused := PauseLoop(agents.executions, workItemId);
      agents := agents.(executions := paused);
      Revokes(effects.leases, workItemId);
      var revoked := RevokeLoop(effects.leases, workItemId);
      effects := effects.(leases := revoked);
      InterventionDone(s, step, work.items[workItemId], State());
      DoneStaysReachable(true, s, step, State());
    }

    /** Records a finding; a severe one blocks its item. */
    method RecordFinding(finding: Finding, c: Caller) returns (ok: bool)
      requires Valid()
      modifies this, ledger
      ensures Valid()
      ensures Did(ok, old(State()), StepBy(c, finding.workItemId, FindingRecorded(finding), System, NoContext), State())
      ensures ok ==> finding.workItemId in old(work).items
      ensures ok ==> Live() == old(Advanced(finding.workItemId)).(work := old(work).(
                       findings := old(work).findings[finding.findingId := finding],
                       items := if finding.severity.Advisory? then old(work).items
                                else old(work).items[finding.workItemId := old(work).items[finding.workItemId].(
                                  state := Blocked, blockers := old(work).items[finding.workItemId].blockers + [finding.findingId])]))
    {
      hide Reachable, Indexed, OutcomeOf, Accepted, Exec, Did, ActivationService.View, AdmitsAgents, AdmitsEffects, AdmitsRoutes, AdmitsActivation;
      hide AgentsConsistent, RoutesKeyed, NodesKeyed, EdgesKnown, FindingsKnown;
      ghost var s := State();
      var step := StepBy(c, finding.workItemId, FindingRecorded(finding), System, NoContext);
      if finding.workItemId !in work.items || finding.nodeId !in work.nodes || finding.acceptedByS5 {
        NotAdmitted(s, step);
        return false;
      }
      KnownReferences(s);
      ok := Record(step, Some(finding.workItemId));
      if !ok {
        RejectedUnchanged(s, step);
        return;
      }
      work := work.(findings := work.findings[finding.findingId := finding]);
      if finding.severity.Severe? {
        var item := work.items[finding.workItemId];
        work := work.(items := work.items[item.workItemId := item.(state := Blocked, blockers := item.blockers + [finding.findingId])]);
      }
      WorkDone(s, step, work, State());
      DoneStaysReachable(true, s, step, State());
    }

    /** Accepts the risk of a finding: it no longer blocks its item. */
    method AcceptRisk(findingId: Id, s5NodeId: Id, note: string, c: Caller) returns (ok: bool)
      requires Valid()
      modifies this, ledger
      ensures Valid()
      ensures findingId in old(work).findings ==>
                Did(ok, old(State()), StepBy(c, old(work).findings[findingId].workItemId, RiskAccepted(findingId, s5NodeId, note), Human, NoContext), State())
      ensures findingId !in old(work).findings ==> !ok && State() == old(State())
      ensures ok ==> findingId in old(work).findings && old(work).findings[findingId].workItemId in old(work).items
      ensures ok ==>
                var f := old(work).findings[findingId];
                var rest := Without(old(work).items[f.workItemId].blockers, findingId);
                Live() == old(Advanced(work.findings[findingId].workItemId)).(work := old(work).(
                  findings := old(work).findings[findingId := f.(acceptedByS5 := true)],
                  items := old(work).items[f.workItemId := old(work).items[f.workItemId].(
                    state := if rest == [] then Ready else Blocked, blockers := rest)]))
    {
      hide Reachable, Indexed, OutcomeOf, Accepted, Exec, Did, Admits, ApplyWork, Correlation, ActivationService.View, Without;
      ghost var s := State();
      if findingId !in work.findings {
        return false;
      }
      var finding := work.findings[findingId];
      var step := StepBy(c, finding.workItemId, RiskAccepted(findingId, s5NodeId, note), Human, NoContext);
      RiskAdmits(Live(), step);
      if s5NodeId != finding.nodeId {
        NotAdmitted(s, step);
        return false;
      }
      KnownFinding(s, findingId);
      ok := Record(step, Some(finding.workItemId));
      if !ok {
        RejectedUnchanged(s, step);
        return;
      }
      work := work.(findings := work.findings[findingId := finding.(acceptedByS5 := true)]);
      var item := work.items[finding.workItemId];
      var blockers := Without(item.blockers, findingId);
      work := work.(items := work.items[item.workItemId := item.(state := if blockers == [] then Ready else Blocked, blockers := blockers)]);
      RiskApplied(s.view.work, EventOf(s.view, step));
      WorkDone(s, step, work, State());
      DoneStaysReachable(true, s, step, State());
    }

    /** Creates a requested or active execution on the delegated node, once the plane is activated. */
    method CreateExecution(x: Execution, c: Caller) returns (ok: bool)
      requires Valid()
      modifies this, ledger
      ensures Valid()
      ensures Did(ok, old(State()), StepBy(c, x.executionId, ExecutionCreated(x), Human, NoContext), State())
      ensures ok ==> Live() == old(Advanced(x.executionId)).(agents := old(agents).(executions := old(agents).executions[x.executionId := x]))
    {
      hide Reachable, Indexed, OutcomeOf, Accepted, Exec, Did, AdmitsWork, AdmitsEffects, AdmitsRoutes, AdmitsActivation;
      ghost var s := State();
      var step := StepBy(c, x.executionId, ExecutionCreated(x), Human, NoContext);
      if !activation.stage.Activated? || x.dataSpaceId != dataSpaceId || x.state !in {Requested, ActiveExecution}
         || x.nodeId !in work.nodes || x.workItemId !in work.items || x.nodeId != work.items[x.workItemId].delegatedToNodeId
         || x.executionId in agents.executions {
        NotAdmitted(s, step);
        return false;
      }
      ok := Record(step, Some(x.workItemId));
      if !ok {
        RejectedUnchanged(s, step);
        return;
      }
      agents := agents.(executions := agents.executions[x.executionId := x]);
      AgentDone(s, step, agents, State());
      DoneStaysReachable(true, s, step, State());
    }

    /** Whether a name was issued to anyone, or is the owner seat. */
    method NameIsRegistered(name: string) returns (r: bool)
      ensures r == NameRegistered(agents, name)
    {
      if name == RESERVED_AGENT_NAME {
        return true;
      }
      return (exists k :: k in agents.assignments && agents.assignments[k].agentName == name)
          || (exists k :: k in agents.registrations && agents.registrations[k].agentName == name);
    }

    /** Whether the identities and references of an agent-to-agent message resolve. */
    method ValidMessageIdentity(n: Notification) returns (r: bool)
      ensures r == ValidAgentMessage(work, agents, n)
    {
      if n.senderAgentName.None? {
        return false;
      }
      var sender := NameIsRegistered(n.senderAgentName.value);
      var recipient := NameIsRegistered(n.recipientAgentName);
      if !sender || !recipient || n.relatedWorkItemId.None? || n.relatedExecutionId.None? {
        return false;
      }
      if n.relatedWorkItemId.value !in work.items || n.relatedExecutionId.value !in agents.executions {
        return false;
      }
      return agents.executions[n.relatedExecutionId.value].workItemId == work.items[n.relatedWorkItemId.value].workItemId;
    }

    /** Delivers one addressed notification. */
    method RecordNotification(n: Notification, c: Caller) returns (ok: bool)
      requires Valid()
      modifies this, ledger
      ensures Valid()
      ensures Did(ok, old(State()), StepBy(c, n.notificationId, NotificationDelivered(n), System, NoContext), State())
      ensures ok ==> Live() == old(Advanced(n.notificationId)).(agents := old(agents).(notifications := old(agents).notifications[n.notificationId := n]))
    {
      hide Reachable, Indexed, OutcomeOf, Accepted, Exec, Did, ActivationService.View, AdmitsWork, AdmitsEffects, AdmitsRoutes, AdmitsActivation;
      ghost var s := State();
      var step := StepBy(c, n.notificationId, NotificationDelivered(n), System, NoContext);
      var identityOk := true;
      if n.sourceKind.AgentToAgent? {
        identityOk := ValidMessageIdentity(n);
      }
      if !ValidNotification(n) || n.dataSpaceId != dataSpaceId || !identityOk || n.notificationId in agents.notifications {
        NotAdmitted(s, step);
        return false;
      }
      ok := Record(step, (if n.relatedWorkItemId.Some? then n.relatedWorkItemId else Some(n.notificationId)));
      if !ok {
        RejectedUnchanged(s, step);
        return;
      }
      agents := agents.(notifications := agents.notifications[n.notificationId := n]);
      AgentDone(s, step, agents, State());
      DoneStaysReachable(true, s, step, State());
    }

    /** Promotes a notification in two events: the work item is created first, then the link is recorded.
        When the second append is refused the new work item stays, unlinked. */
    method PromoteNotification(notificationId: Id, item: WorkItem, c: Caller) returns (ok: bool)
      requires Valid()
      modifies this, ledger
      ensures Valid()
      ensures var before := old(State());
              var create := StepBy(c.(key := c.key + ":work-item"), item.workItemId, WorkItemCreated(item), Human, NoContext);
              var link := StepBy(c, notificationId, NotificationPromoted(notificationId, item.workItemId), System, NoContext);
              if PromotionOpen(before.view, notificationId, item) && Accepted(before, create)
              then Did(ok, Exec(before, create), link, State())
              else !ok && State() == before
      ensures ok ==> notificationId in old(agents).notifications && work.items == old(work).items[item.workItemId := item]
      ensures ok ==> agents == old(agents).(notifications := old(agents).notifications[notificationId :=
                       old(agents).notifications[notificationId].(promotedWorkItemId := Some(item.workItemId))])
    {
      hide Reachable, Indexed, OutcomeOf, Accepted, Exec, Did, AdmitsWork, AdmitsEffects, AdmitsRoutes, AdmitsActivation, ActivationService.View;
      hide WorkConsistent, RoutesKeyed, ExecutionsKnown, AssignmentsLinked, NamesDistinct;
      ghost var before := State();
      if notificationId !in agents.notifications {
        return false;
      }
      var notification := agents.notifications[notificationId];
      if !notification.requiresWorkItem || notification.promotedWorkItemId.Some? || item.dataSpaceId != dataSpaceId
         || item.workItemId == notification.notificationId || item.workItemId in work.items
      {
        return false;
      }
      KnownReferences(before);
      ghost var create := StepBy(c.(key := c.key + ":work-item"), item.workItemId, WorkItemCreated(item), Human, NoContext);
      var created := CreateWorkItem(item, c.(key := c.key + ":work-item"));
      CreationEffect(created, before, create, State());
      if !created {
        return false;
      }
      ghost var s := State();
      var step := StepBy(c, notificationId, NotificationPromoted(notificationId, item.workItemId), System, NoContext);
      ok := Record(step, Some(item.workItemId));
      if !ok {
        RejectedUnchanged(s, step);
        return;
      }
      agents := agents.(notifications := agents.notifications[notificationId := notification.(promotedWorkItemId := Some(item.workItemId))]);
      AgentDone(s, step, agents, State());
      DoneStaysReachable(true, s, step, State());
    }

    /** Records a name that the registry issued for an unnamed execution. */
    method RecordNameAssignment(a: Assignment, issued: Option<Assignment>, c: Caller) returns (ok: bool)
      requires Valid()
      modifies this, ledger
      ensures Valid()
      ensures Did(ok, old(State()), StepBy(c, a.assignmentId, AgentNameAssigned(a), System, IssuedName(issued)), State())
      ensures ok ==> a.executionId in old(agents).executions
      ensures ok ==> Live() == old(Advanced(a.assignmentId)).(agents := old(agents).(
                       assignments := old(agents).assignments[a.assignmentId := a],
                       executions := old(agents).executions[a.executionId := old(agents).executions[a.executionId].(agentName := Some(a.agentName))]))
    {
      hide Reachable, Indexed, OutcomeOf, Accepted, Exec, Did, ActivationService.View, AdmitsWork, AdmitsEffects, AdmitsRoutes, AdmitsActivation;
      ghost var s := State();
      var step := StepBy(c, a.assignmentId, AgentNameAssigned(a), System, IssuedName(issued));
      if issued != Some(a) || a.dataSpaceId != dataSpaceId || a.assignmentId in agents.assignments
         || (exists k :: k in agents.assignments && agents.assignments[k].agentName == a.agentName)
         || a.executionId !in agents.executions
         || agents.executions[a.executionId].workItemId != a.workItemId || agents.executions[a.executionId].nodeId != a.nodeId
         || agents.executions[a.executionId].pilotId != a.pilotId || agents.executions[a.executionId].agentName.Some? {
        NotAdmitted(s, step);
        return false;
      }
      ok := Record(step, Some(a.workItemId));
      if !ok {
        RejectedUnchanged(s, step);
        return;
      }
      agents := agents.(assignments := agents.assignments[a.assignmentId := a]);
      agents := agents.(executions := agents.executions[a.executionId := agents.executions[a.executionId].(agentName := Some(a.agentName))]);
      AgentDone(s, step, agents, State());
      DoneStaysReachable(true, s, step, State());
    }

    /** Records an identity that the registry issued outside the work flow. */
    method RegisterIdentity(r: Registration, issued: Option<Registration>, c: Caller) returns (ok: bool)
      requires Valid()
      modifies this, ledger
      ensures Valid()
      ensures Did(ok, old(State()), StepBy(c, r.registrationId, AgentIdentityRegistered(r), System, IssuedIdentity(issued)), State())
      ensures ok ==> Live() == old(Advanced(r.registrationId)).(agents := old(agents).(registrations := old(agents).registrations[r.registrationId := r]))
    {
      hide Reachable, Indexed, OutcomeOf, Accepted, Exec, Did, ActivationService.View, AdmitsWork, AdmitsEffects, AdmitsRoutes, AdmitsActivation;
      ghost var s := State();
      var step := StepBy(c, r.registrationId, AgentIdentityRegistered(r), System, IssuedIdentity(issued));
      var taken := NameIsRegistered(r.agentName);
      if issued != Some(r) || r.dataSpaceId != dataSpaceId || r.registrationId in agents.registrations || taken || r.nodeId !in work.nodes {
        NotAdmitted(s, step);
        return false;
      }
      ok := Record(step, Some(r.nodeId));
      if !ok {
        RejectedUnchanged(s, step);
        return;
      }
      agents := agents.(registrations := agents.registrations[r.registrationId := r]);
      AgentDone(s, step, agents, State());
      DoneStaysReachable(true, s, step, State());
    }

    /** Moves an execution along the allowed transitions; a pause needs a reason. */
    method SetExecutionState(executionId: Id, state: ExecutionState, reason: Option<string>, actorType: ActorType, c: Caller) returns (ok: bool)
      requires Valid()
      modifies this, ledger
      ensures Valid()
      ensures Did(ok, old(State()), StepBy(c, executionId, ExecutionStateChanged(state, reason), actorType, NoContext), State())
      ensures ok ==> executionId in old(agents).executions
      ensures ok ==> Live() == old(Advanced(executionId)).(agents := old(agents).(executions :=
                       old(agents).executions[executionId := old(agents).executions[executionId].(state := state, pauseReason := reason)]))
    {
      hide Reachable, Indexed, OutcomeOf, Accepted, Exec, Did, ActivationService.View, AdmitsWork, AdmitsEffects, AdmitsRoutes, AdmitsActivation;
      ghost var s := State();
      var step := StepBy(c, executionId, ExecutionStateChanged(state, reason), actorType, NoContext);
      if executionId !in agents.executions || !ExecutionMove(agents.executions[executionId].state, state)
         || (state.PausedExecution? && (reason.None? || reason.value == "")) {
        NotAdmitted(s, step);
        return false;
      }
      ok := Record(step, Some(agents.executions[executionId].workItemId));
      if !ok {
        RejectedUnchanged(s, step);
        return;
      }
      agents := agents.(executions := agents.executions[executionId := agents.executions[executionId].(state := state, pauseReason := reason)]);
      AgentDone(s, step, agents, State());
      DoneStaysReachable(true, s, step, State());
    }

    /** Records the pilot host's terminal receipt of a requested execution. */
    method RecordReceipt(executionId: Id, report: ReceiptReport, c: Caller) returns (ok: bool)
      requires Valid()
      modifies this, ledger
      ensures Valid()
      ensures executionId in old(agents.executions) ==>
                Did(ok, old(State()), StepBy(c, executionId, ReceiptRecorded(ReceiptFor(old(Live()), executionId, report)), Pilot, NoContext), State())
      ensures executionId !in old(agents.executions) ==> !ok && State() == old(State())
      ensures ok ==> executionId in old(agents).executions
      ensures ok ==> Live() == old(Advanced(executionId)).(agents := old(agents).(executions := old(agents).executions[executionId :=
                       old(agents).executions[executionId].(
                         state := match report.status
                           case ReceiptSucceeded => SucceededExecution
                           case ReceiptFailed => FailedExecution
                           case _ => PausedExecution,
                         providerSessionId := report.providerSessionId,
                         pauseReason := if report.status.TransportUnknown? then Some("pilot_receipt_reconciliation_required") else None)]))
    {
      hide Reachable, Indexed, OutcomeOf, Accepted, Exec, Did, AdmitsWork, AdmitsEffects, AdmitsRoutes, AdmitsActivation, AgentsConsistent, ActivationService.View;
      hide WorkConsistent, RoutesKeyed;
      ghost var s := State();
      if executionId !in agents.executions {
        return false;
      }
      var execution := agents.executions[executionId];
      var assignmentId := None;
      if exists k :: k in agents.assignments && agents.assignments[k].executionId == executionId {
        var k :| k in agents.assignments && agents.assignments[k].executionId == executionId;
        assignmentId := Some(k);
        KnownReferences(s);
        OneAssignment(agents, work.items, executionId, k);
      }
      var reason := if report.status.TransportUnknown? then Some(RECONCILE) else None;
      var record := ReceiptRecord(report, executionId, execution.workItemId, assignmentId, ReceiptState(report.status), reason, execution.agentName);
      var step := StepBy(c, executionId, ReceiptRecorded(record), Pilot, NoContext);
      if !execution.state.Requested? || !ReportOk(report) {
        NotAdmitted(s, step);
        return false;
      }
      ok := Record(step, Some(execution.workItemId));
      if !ok {
        RejectedUnchanged(s, step);
        return;
      }
      agents := agents.(executions := agents.executions[executionId :=
        execution.(state := ReceiptState(report.status), providerSessionId := report.providerSessionId, pauseReason := reason)]);
      AgentDone(s, step, agents, State());
      DoneStaysReachable(true, s, step, State());
    }

    /** Pauses the active executions of a disconnected host. The event has no actor. */
    method HostDisconnected(host: Id, key: string, recordedAt: Time) returns (ok: bool)
      requires Valid()
      modifies this, ledger
      ensures Valid()
      ensures Did(ok, old(State()), Step(host, PilotHostDisconnected(host), System, None, key, recordedAt, recordedAt, NoContext), State())
      ensures ok ==> Live() == old(Advanced(host)).(agents := agents)
      ensures ok ==> agents == old(agents).(executions := agents.executions) && agents.executions.Keys == old(agents).executions.Keys
                     && forall k :: k in old(agents).executions ==>
                          var x := old(agents).executions[k];
                          agents.executions[k] == if x.pilotHostId == host && x.state.ActiveExecution?
                                                  then x.(state := PausedExecution, pauseReason := Some("pilot_host_disconnected")) else x
    {
      hide Reachable, Indexed, OutcomeOf, Accepted, Exec, Did, AdmitsWork, AdmitsEffects, AdmitsRoutes, AdmitsActivation, ActivationService.View, PauseHostExecutions;
      ghost var s := State();
      var step := Step(host, PilotHostDisconnected(host), System, None, key, recordedAt, recordedAt, NoContext);
      ok := Record(step, Some(host));
      if !ok {
        RejectedUnchanged(s, step);
        return;
      }
      HostPauses(agents.executions, host);
      var paused := PauseHostLoop(agents.executions, host);
      agents := agents.(executions := paused);
      AgentDone(s, step, agents, State());
      DoneStaysReachable(true, s, step, State());
    }

    /** Grants capabilities between known nodes. */
    method GrantCapability(g: CapabilityGrant, c: Caller) returns (ok: bool)
      requires Valid()
      modifies this, ledger
      ensures Valid()
      ensures Did(ok, old(State()), StepBy(c, g.grantId, CapabilityGranted(g), Human, NoContext), State())
      ensures ok ==> Live() == old(Advanced(g.grantId)).(effects := old(effects).(capabilities := old(effects).capabilities[g.grantId := g]))
    {
      hide Reachable, Indexed, OutcomeOf, Accepted, Exec, Did, ActivationService.View, AdmitsWork, AdmitsAgents, AdmitsRoutes, AdmitsActivation;
      ghost var s := State();
      var step := StepBy(c, g.grantId, CapabilityGranted(g), Human, NoContext);
      if g.validFrom >= g.expiresAt || g.dataSpaceId != dataSpaceId || !g.state.GrantActive? || !(g.validFrom <= c.now < g.expiresAt)
         || g.grantorNodeId !in work.nodes || g.granteeNodeId !in work.nodes {
        NotAdmitted(s, step);
        return false;
      }
      ok := Record(step, Some(g.grantId));
      if !ok {
        RejectedUnchanged(s, step);
        return;
      }
      effects := effects.(capabilities := effects.capabilities[g.grantId := g]);
      EffectDone(s, step, effects, State());
      DoneStaysReachable(true, s, step, State());
    }

    /** Registers a grant from another data space. */
    method RegisterReferenceGrant(g: ReferenceGrant, c: Caller) returns (ok: bool)
      requires Valid()
      modifies this, ledger
      ensures Valid()
      ensures Did(ok, old(State()), StepBy(c, g.grantId, ReferenceGranted(g), Human, NoContext), State())
      ensures ok ==> Live() == old(Advanced(g.grantId)).(effects := old(effects).(references := old(effects).references[g.grantId := g]))
    {
      hide Reachable, Indexed, OutcomeOf, Accepted, Exec, Did, ActivationService.View, AdmitsWork, AdmitsAgents, AdmitsRoutes, AdmitsActivation;
      ghost var s := State();
      var step := StepBy(c, g.grantId, ReferenceGranted(g), Human, NoContext);
      if !ValidReferenceGrant(g) || g.targetDataSpaceId != dataSpaceId || !g.state.GrantActive? || !(g.validFrom <= c.now < g.expiresAt) {
        NotAdmitted(s, step);
        return false;
      }
      ok := Record(step, Some(g.grantId));
      if !ok {
        RejectedUnchanged(s, step);
        return;
      }
      effects := effects.(references := effects.references[g.grantId := g]);
      EffectDone(s, step, effects, State());
      DoneStaysReachable(true, s, step, State());
    }

    /** Reserves budget for a known item. */
    method ReserveBudget(b: BudgetReservation, c: Caller) returns (ok: bool)
      requires Valid()
      modifies this, ledger
      ensures Valid()
      ensures Did(ok, old(State()), StepBy(c, b.reservationId, BudgetReserved(b), Human, NoContext), State())
      ensures ok ==> Live() == old(Advanced(b.reservationId)).(effects := old(effects).(budgets := old(effects).budgets[b.reservationId := b]))
    {
      hide Reachable, Indexed, OutcomeOf, Accepted, Exec, Did, ActivationService.View, AdmitsWork, AdmitsAgents, AdmitsRoutes, AdmitsActivation;
      ghost var s := State();
      var step := StepBy(c, b.reservationId, BudgetReserved(b), Human, NoContext);
      if b.dataSpaceId != dataSpaceId || b.workItemId !in work.items || b.tokenLimit == 0 {
        NotAdmitted(s, step);
        return false;
      }
      ok := Record(step, Some(b.workItemId));
      if !ok {
        RejectedUnchanged(s, step);
        return;
      }
      effects := effects.(budgets := effects.budgets[b.reservationId := b]);
      EffectDone(s, step, effects, State());
      DoneStaysReachable(true, s, step, State());
    }

    /** Plans an effect under a key no other lease holds; a known lease is overwritten. */
    method PlanEffect(lease: EffectLease, c: Caller) returns (ok: bool)
      requires Valid()
      modifies this, ledger
      ensures Valid()
      ensures Did(ok, old(State()), StepBy(c, lease.leaseId, EffectPlanned(lease), Pilot, NoContext), State())
      ensures ok ==> Live() == old(Advanced(lease.leaseId)).(effects := old(effects).(leases := old(effects).leases[lease.leaseId := lease]))
    {
      hide Reachable, Indexed, OutcomeOf, Accepted, Exec, Did, AdmitsWork, AdmitsAgents, AdmitsRoutes, AdmitsActivation;
      ghost var s := State();
      var step := StepBy(c, lease.leaseId, EffectPlanned(lease), Pilot, NoContext);
      if !activation.stage.Activated? || lease.dataSpaceId != dataSpaceId || !lease.state.PlannedLease? || lease.expiresAt <= c.now
         || lease.executionId !in agents.executions || agents.executions[lease.executionId].workItemId != lease.workItemId
         || exists k :: k in effects.leases && effects.leases[k].effectKey == lease.effectKey && effects.leases[k].leaseId != lease.leaseId {
        NotAdmitted(s, step);
        return false;
      }
      ok := Record(step, Some(lease.workItemId));
      if !ok {
        RejectedUnchanged(s, step);
        return;
      }
      effects := effects.(leases := effects.leases[lease.leaseId := lease]);
      EffectDone(s, step, effects, State());
      DoneStaysReachable(true, s, step, State());
    }

    /** Approves a planned lease once. */
    method ApproveEffect(leaseId: Id, c: Caller) returns (ok: bool)
      requires Valid()
      modifies this, ledger
      ensures Valid()
      ensures Did(ok, old(State()), StepBy(c, leaseId, EffectApproved(EffectApproval(leaseId, c.actorId, c.now)), Human, NoContext), State())
      ensures ok ==> Live() == old(Advanced(leaseId)).(effects := old(effects).(approvals := old(effects).approvals[leaseId := EffectApproval(leaseId, c.actorId, c.now)]))
    {
      hide Reachable, Indexed, OutcomeOf, Accepted, Exec, Did, AdmitsWork, AdmitsAgents, AdmitsRoutes, AdmitsActivation;
      ghost var s := State();
      var step := StepBy(c, leaseId, EffectApproved(EffectApproval(leaseId, c.actorId, c.now)), Human, NoContext);
      if !activation.stage.Activated? || leaseId !in effects.leases || !effects.leases[leaseId].state.PlannedLease? || leaseId in effects.approvals {
        NotAdmitted(s, step);
        return false;
      }
      ok := Record(step, Some(effects.leases[leaseId].workItemId));
      if !ok {
        RejectedUnchanged(s, step);
        return;
      }
      effects := effects.(approvals := effects.approvals[leaseId := EffectApproval(leaseId, c.actorId, c.now)]);
      EffectDone(s, step, effects, State());
      DoneStaysReachable(true, s, step, State());
    }

    /** Activates a planned, approved and unexpired lease. */
    method ActivateEffect(leaseId: Id, c: Caller) returns (ok: bool)
      requires Valid()
      modifies this, ledger
      ensures Valid()
      ensures Did(ok, old(State()), StepBy(c, leaseId, EffectActivated(ActiveLease), Pilot, NoContext), State())
      ensures ok ==> leaseId in old(effects).leases
      ensures ok ==> Live() == old(Advanced(leaseId)).(effects := old(effects).(leases := old(effects).leases[leaseId := old(effects).leases[leaseId].(state := ActiveLease)]))
    {
      hide Reachable, Indexed, OutcomeOf, Accepted, Exec, Did, AdmitsWork, AdmitsAgents, AdmitsRoutes, AdmitsActivation;
      ghost var s := State();
      var step := StepBy(c, leaseId, EffectActivated(ActiveLease), Pilot, NoContext);
      if !activation.stage.Activated? || leaseId !in effects.leases || !effects.leases[leaseId].state.PlannedLease?
         || effects.leases[leaseId].expiresAt <= c.now || leaseId !in effects.approvals {
        NotAdmitted(s, step);
        return false;
      }
      ok := Record(step, Some(effects.leases[leaseId].workItemId));
      if !ok {
        RejectedUnchanged(s, step);
        return;
      }
      effects := effects.(leases := effects.leases[leaseId := effects.leases[leaseId].(state := ActiveLease)]);
      EffectDone(s, step, effects, State());
      DoneStaysReachable(true, s, step, State());
    }

    /** The result of an active effect is not known. */
    method MarkEffectUnknown(leaseId: Id, c: Caller) returns (ok: bool)
      requires Valid()
      modifies this, ledger
      ensures Valid()
      ensures leaseId in old(effects.leases) ==>
                Did(ok, old(State()), StepBy(c, leaseId, EffectResultUnknown(UnknownLease, old(effects.leases)[leaseId].effectKey), Pilot, NoContext), State())
      ensures leaseId !in old(effects.leases) ==> !ok && State() == old(State())
      ensures ok ==> leaseId in old(effects).leases
      ensures ok ==> Live() == old(Advanced(leaseId)).(effects := old(effects).(leases := old(effects).leases[leaseId := old(effects).leases[leaseId].(state := UnknownLease)]))
    {
      hide Reachable, Indexed, OutcomeOf, Accepted, Exec, Did, AdmitsWork, AdmitsAgents, AdmitsRoutes, AdmitsActivation, ActivationService.View;
      ghost var s := State();
      if leaseId !in effects.leases {
        return false;
      }
      var lease := effects.leases[leaseId];
      var step := StepBy(c, leaseId, EffectResultUnknown(UnknownLease, lease.effectKey), Pilot, NoContext);
      if !lease.state.ActiveLease? {
        NotAdmitted(s, step);
        return false;
      }
      ok := Record(step, Some(lease.workItemId));
      if !ok {
        RejectedUnchanged(s, step);
        return;
      }
      effects := effects.(leases := effects.leases[leaseId := lease.(state := UnknownLease)]);
      EffectDone(s, step, effects, State());
      DoneStaysReachable(true, s, step, State());
    }

    /** Settles an unknown effect as succeeded or failed. */
    method ReconcileEffect(leaseId: Id, result: LeaseState, c: Caller) returns (ok: bool)
      requires Valid()
      modifies this, ledger
      ensures Valid()
      ensures leaseId in old(effects.leases) ==>
                Did(ok, old(State()), StepBy(c, leaseId, EffectReconciled(result, old(effects.leases)[leaseId].effectKey), Human, NoContext), State())
      ensures leaseId !in old(effects.leases) ==> !ok && State() == old(State())
      ensures ok ==> leaseId in old(effects).leases
      ensures ok ==> Live() == old(Advanced(leaseId)).(effects := old(effects).(leases := old(effects).leases[leaseId := old(effects).leases[leaseId].(state := result)]))
    {
      hide Reachable, Indexed, OutcomeOf, Accepted, Exec, Did, AdmitsWork, AdmitsAgents, AdmitsRoutes, AdmitsActivation, ActivationService.View;
      ghost var s := State();
      if leaseId !in effects.leases {
        return false;
      }
      var lease := effects.leases[leaseId];
      var step := StepBy(c, leaseId, EffectReconciled(result, lease.effectKey), Human, NoContext);
      if !lease.state.UnknownLease? || result !in {SucceededLease, FailedLease} {
        NotAdmitted(s, step);
        return false;
      }
      ok := Record(step, Some(lease.workItemId));
      if !ok {
        RejectedUnchanged(s, step);
        return;
      }
      effects := effects.(leases := effects.leases[leaseId := lease.(state := result)]);
      EffectDone(s, step, effects, State());
      DoneStaysReachable(true, s, step, State());
    }

    /** Registers a draft route snapshot; a known identity is overwritten. */
    method RegisterRoute(route: RouteSnapshot, c: Caller) returns (ok: bool)
      requires Valid()
      modifies this, ledger
      ensures Valid()
      ensures Did(ok, old(State()), StepBy(c, route.snapshotId, RouteRegistered(route), Human, NoContext), State())
      ensures ok ==> Live() == old(Advanced(route.snapshotId)).(routes := old(routes)[route.snapshotId := route])
    {
      hide Reachable, Indexed, OutcomeOf, Accepted, Exec, Did, ValidRouteSnapshot, ActivationService.View, AdmitsWork, AdmitsAgents, AdmitsEffects, AdmitsActivation;
      ghost var s := State();
      var step := StepBy(c, route.snapshotId, RouteRegistered(route), Human, NoContext);
      if !ValidRouteSnapshot(route) || route.dataSpaceId != dataSpaceId || !route.state.Draft? {
        NotAdmitted(s, step);
        return false;
      }
      ok := Record(step, Some(route.snapshotId));
      if !ok {
        RejectedUnchanged(s, step);
        return;
      }
      routes := routes[route.snapshotId := route];
      RouteDone(s, step, routes, State());
      DoneStaysReachable(true, s, step, State());
    }

    /** Approves a snapshot: first by S3*, then by the owner. */
    method ApproveRoute(snapshotId: Id, approval: RouteApproval, c: Caller) returns (ok: bool)
      requires Valid()
      modifies this, ledger
      ensures Valid()
      ensures Did(ok, old(State()), StepBy(c, snapshotId, RouteSnapshotApproved(approval, ApprovedState(approval)), Human, NoContext), State())
      ensures ok ==> snapshotId in old(routes)
      ensures ok ==> approval != OtherApproval && Live() == old(Advanced(snapshotId)).(routes := old(routes)[snapshotId :=
                       if approval.S3StarApproval?
                       then old(routes)[snapshotId].(state := S3StarApproved, s3StarApprovalEvent := Some(EventId(dataSpaceId, snapshotId, c.key)))
                       else old(routes)[snapshotId].(state := OwnerApproved, ownerApprovalEvent := Some(EventId(dataSpaceId, snapshotId, c.key)))])
    {
      hide Reachable, Indexed, OutcomeOf, Accepted, Exec, Did, AdmitsWork, AdmitsAgents, AdmitsEffects, AdmitsActivation, ActivationService.View;
      ghost var s := State();
      var step := StepBy(c, snapshotId, RouteSnapshotApproved(approval, ApprovedState(approval)), Human, NoContext);
      if snapshotId !in routes {
        NotAdmitted(s, step);
        return false;
      }
      var route := routes[snapshotId];
      if !(approval.S3StarApproval? && route.state.Draft?) && !(approval.OwnerApproval? && route.state.S3StarApproved?) {
        NotAdmitted(s, step);
        return false;
      }
      ok := Record(step, Some(snapshotId));
      if !ok {
        RejectedUnchanged(s, step);
        return;
      }
      var eventId := EventId(dataSpaceId, snapshotId, c.key);
      if approval.S3StarApproval? {
        routes := routes[snapshotId := route.(state := S3StarApproved, s3StarApprovalEvent := Some(eventId))];
      } else {
        routes := routes[snapshotId := route.(state := OwnerApproved, ownerApprovalEvent := Some(eventId))];
      }
      RouteDone(s, step, routes, State());
      DoneStaysReachable(true, s, step, State());
    }

    /** Publishes an owner-approved snapshot when its route has no other published one. */
    method PublishRoute(snapshotId: Id, c: Caller) returns (ok: bool)
      requires Valid()
      modifies this, ledger
      ensures Valid()
      ensures Did(ok, old(State()), StepBy(c, snapshotId, RoutePublished, Human, NoContext), State())
      ensures ok ==> snapshotId in old(routes)
      ensures ok ==> Live() == old(Advanced(snapshotId)).(routes := old(routes)[snapshotId := old(routes)[snapshotId].(state := Published)])
    {
      hide Reachable, Indexed, OutcomeOf, Accepted, Exec, Did, ActivationService.View, AdmitsWork, AdmitsAgents, AdmitsEffects, AdmitsActivation;
      ghost var s := State();
      var step := StepBy(c, snapshotId, RoutePublished, Human, NoContext);
      if snapshotId !in routes || !routes[snapshotId].state.OwnerApproved?
         || exists k :: k in routes && routes[k].snapshotId != snapshotId && routes[k].routeKey == routes[snapshotId].routeKey
                        && routes[k].state.Published? {
        NotAdmitted(s, step);
        return false;
      }
      ok := Record(step, Some(snapshotId));
      if !ok {
        RejectedUnchanged(s, step);
        return;
      }
      routes := routes[snapshotId := routes[snapshotId].(state := Published)];
      RouteDone(s, step, routes, State());
      DoneStaysReachable(true, s, step, State());
    }

    /** Retires a published snapshot, decommissioned or superseded by an approved replacement. */
    method RetireRoute(snapshotId: Id, reason: RetirementReason, replacement: Option<Id>, c: Caller) returns (ok: bool)
      requires Valid()
      modifies this, ledger
      ensures Valid()
      ensures Did(ok, old(State()), StepBy(c, snapshotId, RouteRetired(reason, replacement), Human, NoContext), State())
      ensures ok ==> snapshotId in old(routes)
      ensures ok ==> Live() == old(Advanced(snapshotId)).(routes := old(routes)[snapshotId := old(routes)[snapshotId].(state := Retired)])
    {
      hide Reachable, Indexed, OutcomeOf, Accepted, Exec, Did, ActivationService.View, AdmitsWork, AdmitsAgents, AdmitsEffects, AdmitsActivation;
      ghost var s := State();
      var step := StepBy(c, snapshotId, RouteRetired(reason, replacement), Human, NoContext);
      if snapshotId !in routes || !routes[snapshotId].state.Published?
         || (reason.RouteDecommissioned? && replacement.Some?)
         || (reason.SupersededByApproved? && (replacement.None? || !ReplacementOk(routes, routes[snapshotId], replacement.value))) {
        NotAdmitted(s, step);
        return false;
      }
      ok := Record(step, Some(snapshotId));
      if !ok {
        RejectedUnchanged(s, step);
        return;
      }
      routes := routes[snapshotId := routes[snapshotId].(state := Retired)];
      RouteDone(s, step, routes, State());
      DoneStaysReachable(true, s, step, State());
    }
  }

  function ApprovedState(approval: RouteApproval): RouteState {
    if approval.S3StarApproval? then S3StarApproved else OwnerApproved
  }

  /** The notification waits for promotion and the work item is new and distinct from it. */
  predicate PromotionOpen(v: View, notificationId: Id, item: WorkItem) {
    && notificationId in v.agents.notifications
    && v.agents.notifications[notificationId].requiresWorkItem
    && v.agents.notifications[notificationId].promotedWorkItemId.None?
    && item.dataSpaceId == v.dataSpaceId
    && item.workItemId != v.agents.notifications[notificationId].notificationId
    && item.workItemId !in v.work.items
  }

  /** What creating a work item leaves for the second half of a promotion. */
  lemma CreationEffect(ok: bool, s: Sys, step: Step, next: Sys)
    requires Did(ok, s, step, next) && step.body.WorkItemCreated?
    ensures ok == Accepted(s, step) && (!ok ==> next == s) && next == Exec(s, step)
    ensures ok ==> next.view.agents == s.view.agents && step.body.workItem.workItemId in next.view.work.items
  {
    hide Accepted, ApplyAgents, ApplyEffects, ApplyRoutes, ApplyActivation;
  }

  /** The active executions of the item are paused, and all others are as they were. */
  predicate PausedBy(before: map<Id, Execution>, after: map<Id, Execution>, workItemId: Id) {
    before.Keys == after.Keys
    && forall k :: k in before ==>
         after[k] == if before[k].workItemId == workItemId && before[k].state.ActiveExecution?
                     then before[k].(state := PausedExecution, pauseReason := Some("human_intervention")) else before[k]
  }

  /** The planned and active leases of the item are revoked, and all others are as they were. */
  predicate RevokedBy(before: map<Id, EffectLease>, after: map<Id, EffectLease>, workItemId: Id) {
    before.Keys == after.Keys
    && forall k :: k in before ==>
         after[k] == if before[k].workItemId == workItemId && (before[k].state.PlannedLease? || before[k].state.ActiveLease?)
                     then before[k].(state := RevokedLease) else before[k]
  }

  lemma WorkPauses(executions: map<Id, Execution>, workItemId: Id)
    ensures PausedBy(executions, PauseWorkExecutions(executions, workItemId), workItemId)
  {
  }

  lemma HostPauses(executions: map<Id, Execution>, host: Id)
    ensures PauseHostExecutions(executions, host).Keys == executions.Keys
    ensures forall k :: k in executions ==>
              var x := executions[k];
              PauseHostExecutions(executions, host)[k] == if x.pilotHostId == host && x.state.ActiveExecution?
                      then x.(state := PausedExecution, pauseReason := Some("pilot_host_disconnected")) else x
  {
  }

  lemma Revokes(leases: map<Id, EffectLease>, workItemId: Id)
    ensures RevokedBy(leases, RevokeLeases(leases, workItemId), workItemId)
  {
  }

  /** The loop over all executions that pauses the active ones of an item. */
  method PauseLoop(executions: map<Id, Execution>, workItemId: Id) returns (r: map<Id, Execution>)
    ensures r == PauseWorkExecutions(executions, workItemId)
  {
    r := executions;
    var rest := executions.Keys;
    while rest != {}
      invariant rest <= executions.Keys && r.Keys == executions.Keys
      invariant forall k :: k in executions ==> r[k] == if k in rest then executions[k] else PauseIf(executions[k], executions[k].workItemId == workItemId, INTERVENTION)
      decreases rest
    {
      var k :| k in rest;
      var x := executions[k];
      if x.workItemId == workItemId && x.state == ActiveExecution {
        r := r[k := x.(state := PausedExecution, pauseReason := Some(INTERVENTION))];
      }
      rest := rest - {k};
    }
  }

  /** The loop over all executions that pauses the active ones of a host. */
  method PauseHostLoop(executions: map<Id, Execution>, host: Id) returns (r: map<Id, Execution>)
    ensures r == PauseHostExecutions(executions, host)
  {
    r := executions;
    var rest := executions.Keys;
    while rest != {}
      invariant rest <= executions.Keys && r.Keys == executions.Keys
      invariant forall k :: k in executions ==> r[k] == if k in rest then executions[k] else PauseIf(executions[k], executions[k].pilotHostId == host, DISCONNECTED)
      decreases rest
    {
      var k :| k in rest;
      var x := executions[k];
      if x.pilotHostId == host && x.state == ActiveExecution {
        r := r[k := x.(state := PausedExecution, pauseReason := Some(DISCONNECTED))];
      }
      rest := rest - {k};
    }
  }

  /** The loop over all leases that revokes the planned and active ones of an item. */
  method RevokeLoop(leases: map<Id, EffectLease>, workItemId: Id) returns (r: map<Id, EffectLease>)
    ensures r == RevokeLeases(leases, workItemId)
  {
    r := leases;
    var rest := leases.Keys;
    while rest != {}
      invariant rest <= leases.Keys && r.Keys == leases.Keys
      invariant forall k :: k in leases ==> r[k] == if k in rest then leases[k] else RevokeIf(leases[k], workItemId)
      decreases rest
    {
      var k :| k in rest;
      var lease := leases[k];
      if lease.workItemId == workItemId && (lease.state == PlannedLease || lease.state == ActiveLease) {
        r := r[k := lease.(state := RevokedLease)];
      }
      rest := rest - {k};
    }
  }
}
