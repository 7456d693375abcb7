/** The operational projection: it pages through the ledger and updates a Kernel's views in
    place, event by event. It is written independently of the commands. */
module Projection {
  import opened Models
  import opened Events
  import opened Ledger
  import opened Views
  import opened Activation
  import opened KernelService

  class OperationalProjection {
    const kernel: Kernel
    var cursor: nat

    constructor (kernel: Kernel)
      ensures this.kernel == kernel && cursor == 0
    {
      this.kernel := kernel;
      cursor := 0;
    }

    /** Reads pages until one is empty. The outcome is the fold of all events after the cursor, whatever
        the page size; a raising handler leaves the views at the last good event. */
    method Rebuild(pageSize: int) returns (r: Result<nat>)
      requires kernel.ledger.Valid() && cursor <= |kernel.ledger.events|
      modifies this, kernel, kernel.activation
      ensures kernel.ledger.events == old(kernel.ledger.events)
      ensures pageSize <= 0 ==> r.Err? && kernel.Live() == old(kernel.Live()) && cursor == old(cursor)
      ensures pageSize > 0 ==>
                match ReplayFrom(old(kernel.Live()), old(cursor), kernel.ledger.events)
                case Ok(v) => r == Ok(|kernel.ledger.events|) && kernel.Live() == v && cursor == |kernel.ledger.events|
                case Err(_) => (
                  && r.Err? && old(cursor) <= cursor < |kernel.ledger.events|
                  && ReplayFrom(old(kernel.Live()), old(cursor), kernel.ledger.events[..cursor]) == Ok(kernel.Live()))
    {
      hide Indexed, Apply, Slice;
      if pageSize <= 0 {
        return Err(InvariantViolation);
      }
      ghost var start, from, log := kernel.Live(), cursor, kernel.ledger.events;
      assert log[..cursor] == log[..from];
      while true
        invariant from <= cursor <= |log| && kernel.ledger.events == log && kernel.ledger.Valid()
        invariant ReplayFrom(start, from, log[..cursor]) == Ok(kernel.Live())
        invariant ReplayFrom(start, from, log) == ReplayFrom(kernel.Live(), cursor, log)
        decreases |log| - cursor
      {
        var page := kernel.ledger.Page(cursor, pageSize);
        SliceItems(log, cursor, pageSize);
        if page.value == [] {
          assert log[..cursor] == log;
          return Ok(cursor);
        }
        ghost var pageStart := cursor;
        for i := 0 to |page.value|
          invariant cursor == pageStart + i <= |log| && kernel.ledger.events == log && kernel.ledger.Valid()
          invariant ReplayFrom(start, from, log[..cursor]) == Ok(kernel.Live())
          invariant ReplayFrom(start, from, log) == ReplayFrom(kernel.Live(), cursor, log)
        {
          var stored := page.value[i];
          assert stored == log[cursor];
          assert log[..cursor + 1] == log[..cursor] + [stored];
          ReplaySnoc(start, from, log[..cursor], stored);
          if stored.cursor != cursor + 1 {
            return Err(InvariantViolation);
          }
          var ok := ApplyEvent(stored);
          if !ok {
            return Err(InvariantViolation);
          }
          cursor := stored.cursor;
        }
      }
    }

    /** Checks the data space and the stream version, then runs the event's handler. */
    method ApplyEvent(stored: StoredEvent) returns (ok: bool)
      modifies kernel, kernel.activation
      ensures match Apply(old(kernel.Live()), stored)
              case Ok(v) => ok && kernel.Live() == v
              case Err(_) => !ok && kernel.Live() == old(kernel.Live())
    {
      hide ApplyWork, ApplyAgents, ApplyEffects, ApplyRoutes, ApplyActivation;
      var e := stored.event;
      if e.dataSpaceId != kernel.dataSpaceId {
        return false;
      }
      var known := VersionOf(kernel.versions, e.streamId);
      if e.streamId == kernel.activation.streamId && known < kernel.activation.version {
        known := kernel.activation.version;
      }
      if e.streamVersion != known + 1 {
        return false;
      }
      if e.body.ActivationEvent? {
        ok := OnActivation(stored);
      } else {
        match AreaOf(e.body) {
        case WorkArea => ok := OnWork(e);
        case AgentArea => ok := OnAgents(e);
        case EffectArea => ok := OnEffects(e);
        case RouteArea => ok := OnRoutes(e);
        }
        if ok {
          kernel.versions := kernel.versions[e.streamId := e.streamVersion];
        }
      }
    }

    method OnWork(e: Event) returns (ok: bool)
      modifies kernel, kernel.activation
      ensures match ApplyWork(old(kernel.work), e)
              case Ok(w) => ok && kernel.Live() == WorkChange(old(kernel.Live()), w, e)
              case Err(_) => !ok && kernel.Live() == old(kernel.Live())
    {
      hide NodesById, WorkItemsById, PauseWorkExecutions, RevokeLeases;
      if e.body.HumanIntervention? {
        ok := OnIntervention(e);
        return;
      }
      var work := kernel.work;
      match e.body {
      case NodeRegistered(node) => kernel.work := work.(nodes := work.nodes[node.nodeId := node]);
      case WorkItemCreated(item) =>
        var edges := work.edges;
        if item.parentWorkItemId.Some? {
          edges := edges + [WorkEdge(item.parentWorkItemId.value, item.workItemId, DelegatedTo),
                            WorkEdge(item.workItemId, item.parentWorkItemId.value, IntegratedBy)];
        }
        assert edges == work.edges + ParentEdges(item);
        kernel.work := work.(items := work.items[item.workItemId := item], edges := edges);
      case WorkDependencyAdded(edge) => kernel.work := work.(edges := work.edges + [edge]);
      case WorkGraphImported(g) =>
        kernel.work := work.(nodes := work.nodes + NodesById(g.nodes), items := work.items + WorkItemsById(g.workItems), edges := work.edges + g.edges);
        kernel.activation.workGraphSnapshotId := Some(g.snapshotId);
      case FindingRecorded(f) =>
        if f.severity.Severe? {
          if f.workItemId !in work.items {
            return false;
          }
          var item := work.items[f.workItemId];
          work := work.(items := work.items[item.workItemId := item.(state := Blocked, blockers := item.blockers + [f.findingId])]);
        }
        kernel.work := work.(findings := work.findings[f.findingId := f]);
      case RiskAccepted(_, _, _) | WorkItemDelegated(_) | WorkItemResumePrepared | WorkItemCompleted(_) =>
        ok := OnWorkItem(e);
        return;
      case _ => return false;
      }
      return true;
    }

    /** The handlers that change the work item of the stream. */
    method OnWorkItem(e: Event) returns (ok: bool)
      requires e.body.RiskAccepted? || e.body.WorkItemDelegated? || e.body.WorkItemResumePrepared? || e.body.WorkItemCompleted?
      modifies kernel
      ensures match ApplyWork(old(kernel.work), e)
              case Ok(w) => ok && kernel.Live() == old(kernel.Live()).(work := w)
              case Err(_) => !ok && kernel.Live() == old(kernel.Live())
    {
      hide ActivationService.View;
      var work := kernel.work;
      match e.body {
      case RiskAccepted(findingId, _, _) =>
        if findingId !in work.findings || e.streamId !in work.items {
          return false;
        }
        var item := work.items[e.streamId];
        var blockers := Without(item.blockers, findingId);
        kernel.work := work.(findings := work.findings[findingId := work.findings[findingId].(acceptedByS5 := true)],
          items := work.items[e.streamId := item.(state := if blockers == [] then Ready else Blocked, blockers := blockers)]);
      case WorkItemDelegated(nodeId) =>
        if e.streamId !in work.items {
          return false;
        }
        kernel.work := work.(items := work.items[e.streamId := work.items[e.streamId].(delegatedToNodeId := nodeId, state := Ready)]);
      case WorkItemResumePrepared =>
        if e.streamId !in work.items {
          return false;
        }
        kernel.work := work.(items := work.items[e.streamId := work.items[e.streamId].(state := Ready)]);
      case WorkItemCompleted(evidence) =>
        if e.streamId !in work.items {
          return false;
        }
        kernel.work := work.(items := work.items[e.streamId := work.items[e.streamId].(state := Completed, evidence := Some(evidence))]);
      }
      return true;
    }

    method OnIntervention(e: Event) returns (ok: bool)
      requires e.body.HumanIntervention?
      modifies kernel
      ensures match ApplyWork(old(kernel.work), e)
              case Ok(w) => ok && kernel.Live() == WorkChange(old(kernel.Live()), w, e)
              case Err(_) => !ok && kernel.Live() == old(kernel.Live())
    {
      hide PauseWorkExecutions, RevokeLeases;
      var items := kernel.work.items;
      if e.streamId !in items {
        return false;
      }
      kernel.work := kernel.work.(items := items[e.streamId := items[e.streamId].(state := PausedWork)]);
      var paused := PauseLoop(kernel.agents.executions, e.streamId);
      kernel.agents := kernel.agents.(executions := paused);
      var revoked := RevokeLoop(kernel.effects.leases, e.streamId);
      kernel.effects := kernel.effects.(leases := revoked);
      return true;
    }

    method OnAgents(e: Event) returns (ok: bool)
      modifies kernel
      ensures match ApplyAgents(kernel.work, old(kernel.agents), e)
              case Ok(a) => ok && kernel.Live() == old(kernel.Live()).(agents := a)
              case Err(_) => !ok && kernel.Live() == old(kernel.Live())
    {
      hide ActivationService.View, ValidAgentMessage, PauseHostExecutions;
      var agents, id := kernel.agents, e.streamId;
      match e.body {
      case ExecutionCreated(x) => agents := agents.(executions := agents.executions[x.executionId := x]);
      case ExecutionStateChanged(state, reason) =>
        if id !in agents.executions {
          return false;
        }
        agents := agents.(executions := agents.executions[id := agents.executions[id].(state := state, pauseReason := reason)]);
      case ReceiptRecorded(r) =>
        if id !in agents.executions || r.executionId != id || r.workItemId != agents.executions[id].workItemId {
          return false;
        }
        if r.assignmentId.Some?
           && (r.assignmentId.value !in agents.assignments || agents.assignments[r.assignmentId.value].executionId != id)
        {
          return false;
        }
        if r.agentName != agents.executions[id].agentName {
          return false;
        }
        agents := agents.(executions := agents.executions[id :=
          agents.executions[id].(state := r.state, providerSessionId := r.report.providerSessionId, pauseReason := r.pauseReason)]);
      case PilotHostDisconnected(host) =>
        var paused := PauseHostLoop(agents.executions, host);
        agents := agents.(executions := paused);
      case AgentNameAssigned(a) =>
        if (a.assignmentId in agents.assignments && agents.assignments[a.assignmentId] != a)
           || (exists k :: k in agents.assignments && agents.assignments[k].agentName == a.agentName && agents.assignments[k].assignmentId != a.assignmentId)
        {
          return false;
        }
        if a.executionId !in agents.executions || agents.executions[a.executionId].agentName.Some?
           || agents.executions[a.executionId].workItemId != a.workItemId
        {
          return false;
        }
        agents := agents.(assignments := agents.assignments[a.assignmentId := a],
          executions := agents.executions[a.executionId := agents.executions[a.executionId].(agentName := Some(a.agentName))]);
      case AgentIdentityRegistered(r) =>
        var existing := r.registrationId in agents.registrations;
        if existing && agents.registrations[r.registrationId] != r {
          return false;
        }
        var taken := kernel.NameIsRegistered(r.agentName);
        if (taken && !existing) || r.nodeId !in kernel.work.nodes {
          return false;
        }
        agents := agents.(registrations := agents.registrations[r.registrationId := r]);
      case NotificationDelivered(_) | NotificationPromoted(_, _) =>
        ok := OnNotification(e);
        return;
      case _ => return false;
      }
      kernel.agents := agents;
      return true;
    }

    /** Deliveries and promotions of notifications. */
    method OnNotification(e: Event) returns (ok: bool)
      requires e.body.NotificationDelivered? || e.body.NotificationPromoted?
      modifies kernel
      ensures match ApplyAgents(kernel.work, old(kernel.agents), e)
              case Ok(a) => ok && kernel.Live() == old(kernel.Live()).(agents := a)
              case Err(_) => !ok && kernel.Live() == old(kernel.Live())
    {
      hide ActivationService.View, NameRegistered;
      var agents, id := kernel.agents, e.streamId;
      match e.body {
      case NotificationDelivered(n) =>
        if n.sourceKind.AgentToAgent? {
          var identityOk := kernel.ValidMessageIdentity(n);
          if !identityOk {
            return false;
          }
        }
        if n.notificationId in agents.notifications && agents.notifications[n.notificationId] != n {
          return false;
        }
        agents := agents.(notifications := agents.notifications[n.notificationId := n]);
      case NotificationPromoted(_, target) =>
        if id !in agents.notifications || target !in kernel.work.items {
          return false;
        }
        var n := agents.notifications[id];
        if !n.requiresWorkItem || (n.promotedWorkItemId.Some? && n.promotedWorkItemId.value != target) {
          return false;
        }
        agents := agents.(notifications := agents.notifications[id := n.(promotedWorkItemId := Some(target))]);
      }
      kernel.agents := agents;
      return true;
    }

    method OnEffects(e: Event) returns (ok: bool)
      modifies kernel
      ensures match ApplyEffects(old(kernel.effects), e)
              case Ok(x) => ok && kernel.Live() == old(kernel.Live()).(effects := x)
              case Err(_) => !ok && kernel.Live() == old(kernel.Live())
    {
      var effects := kernel.effects;
      match e.body {
      case CapabilityGranted(g) => effects := effects.(capabilities := effects.capabilities[g.grantId := g]);
      case ReferenceGranted(g) => effects := effects.(references := effects.references[g.grantId := g]);
      case BudgetReserved(b) => effects := effects.(budgets := effects.budgets[b.reservationId := b]);
      case EffectPlanned(l) => effects := effects.(leases := effects.leases[l.leaseId := l]);
      case EffectApproved(a) => effects := effects.(approvals := effects.approvals[a.leaseId := a]);
      case EffectActivated(_) | EffectResultUnknown(_, _) | EffectReconciled(_, _) =>
        if e.streamId !in effects.leases {
          return false;
        }
        effects := effects.(leases := effects.leases[e.streamId := effects.leases[e.streamId].(state := e.body.leaseState)]);
      case _ => return false;
      }
      kernel.effects := effects;
      return true;
    }

    method OnRoutes(e: Event) returns (ok: bool)
      modifies kernel
      ensures match ApplyRoutes(old(kernel.routes), e)
              case Ok(r) => ok && kernel.Live() == old(kernel.Live()).(routes := r)
              case Err(_) => !ok && kernel.Live() == old(kernel.Live())
    {
      var id := e.streamId;
      match e.body {
      case RouteRegistered(r) => kernel.routes := kernel.routes[r.snapshotId := r];
      case RouteSnapshotApproved(approval, state) =>
        if id !in kernel.routes {
          return false;
        }
        var route := kernel.routes[id].(state := state);
        if approval.S3StarApproval? {
          route := route.(s3StarApprovalEvent := Some(e.eventId));
        } else {
          route := route.(ownerApprovalEvent := Some(e.eventId));
        }
        kernel.routes := kernel.routes[id := route];
      case RoutePublished =>
        if id !in kernel.routes {
          return false;
        }
        kernel.routes := kernel.routes[id := kernel.routes[id].(state := Published)];
      case RouteRetired(reason, replacement) =>
        if !e.actorType.Human? || e.actorId.None? || id !in kernel.routes || !kernel.routes[id].state.Published? {
          return false;
        }
        if reason.RouteDecommissioned? {
          if replacement.Some? {
            return false;
          }
        } else if replacement.None? || !ReplacementOk(kernel.routes, kernel.routes[id], replacement.value) {
          return false;
        }
        kernel.routes := kernel.routes[id := kernel.routes[id].(state := Retired)];
      case _ => return false;
      }
      return true;
    }

    method OnActivation(stored: StoredEvent) returns (ok: bool)
      requires stored.event.body.ActivationEvent?
      modifies kernel.activation
      ensures match ApplyActivation(old(kernel.activation.View()), stored)
              case Ok(a) => ok && kernel.Live() == old(kernel.Live()).(activation := a)
              case Err(_) => !ok && kernel.Live() == old(kernel.Live())
    {
      var a, e := kernel.activation, stored.event;
      match e.body.change {
      case HistoryImportVerified(receipt, conversation) =>
        if conversation == "" {
          return false;
        }
        a.history := ImportView(Some(receipt), SessionsByRef(receipt.sessions), stored.cursor, Some(conversation));
        a.stage := HistoryImported;
        a.attempt := a.attempt.(inProgress := false, startedVersion := None, pendingRevision := None);
      case ReorientationStarted | ReorientationRetryStarted(_) | ReorientationRevisionRetryStarted(_) =>
        a.stage := ReorientationOnly;
        a.attempt := AttemptView(None, true, Some(e.streamVersion), None);
      case ReorientationFailed(code) =>
        a.attempt := AttemptView(Some(code), false, None, None);
      case ReorientationInterrupted =>
        a.attempt := AttemptView(Some(INTERRUPTED), false, None, None);
      case SessionCheckpointed(session) =>
        if session == "" {
          return false;
        }
        a.providerSessionId := Some(session);
      case HistoryQueryResolved(operation) =>
        a.evidence := a.evidence.(operations := a.evidence.operations + {operation}, eventIds := a.evidence.eventIds + {e.eventId});
      case SessionIndexPageVerified(_) =>
      case UsageRecorded(input, output) =>
        a.evidence := a.evidence.(pilotCalls := a.evidence.pilotCalls + 1, inputTokens := a.evidence.inputTokens + input,
                                  outputTokens := a.evidence.outputTokens + output);
      case AssessmentAccepted(assessment) =>
        a.assessment := Some(assessment);
        a.stage := AwaitingOwner;
        a.attempt := a.attempt.(inProgress := false, startedVersion := None, pendingRevision := None);
      case RevisionRequested(prior, reason) =>
        if a.assessment.None? || a.assessment.value.assessmentId != prior {
          return false;
        }
        a.assessment := None;
        a.attempt := AttemptView(None, false, None, Some(reason));
        a.stage := ReorientationOnly;
      case ActivationApproved(_, at) =>
        a.stage := Activated;
        a.approvedAt := Some(at);
      }
      a.version := e.streamVersion;
      return true;
    }
  }
}
