/** When the projection raises: an event of another data space, one that does not continue its stream, or one whose handler
    finds something missing or in conflict. */
module Handlers {
  import opened Models
  import opened Events
  import opened Views

  /** What the handlers of work events raise on. */
  lemma WorkRaises(v: WorkView, e: Event)
    requires !e.body.ActivationEvent? && AreaOf(e.body).WorkArea?
    ensures ApplyWork(v, e).Err?
            <==> || ((e.body.WorkItemDelegated? || e.body.WorkItemResumePrepared? || e.body.WorkItemCompleted? || e.body.HumanIntervention?)
                     && e.streamId !in v.items)
                 || (e.body.FindingRecorded? && e.body.finding.severity == Severe && e.body.finding.workItemId !in v.items)
                 || (e.body.RiskAccepted? && (e.body.findingId !in v.findings || e.streamId !in v.items))
  {
  }

  /** What the handlers of executions and receipts raise on. */
  lemma ExecutionRaises(w: WorkView, v: AgentView, e: Event)
    requires e.body.ExecutionCreated? || e.body.ExecutionStateChanged? || e.body.ReceiptRecorded? || e.body.PilotHostDisconnected?
    ensures ApplyAgents(w, v, e).Err?
            <==> || ((e.body.ExecutionStateChanged? || e.body.ReceiptRecorded?) && e.streamId !in v.executions)
                 || (e.body.ReceiptRecorded?
                     && var r, x := e.body.record, v.executions[e.streamId];
                        || r.executionId != e.streamId || r.workItemId != x.workItemId || r.agentName != x.agentName
                        || (r.assignmentId.Some? && r.assignmentId.value !in v.assignments)
                        || (r.assignmentId.Some? && v.assignments[r.assignmentId.value].executionId != e.streamId))
  {
  }

  /** What the handlers of names raise on. */
  lemma NamingRaises(w: WorkView, v: AgentView, e: Event)
    ensures e.body.AgentNameAssigned? ==>
              var a := e.body.assignment;
              ApplyAgents(w, v, e).Err?
              <==> || (a.assignmentId in v.assignments && v.assignments[a.assignmentId] != a)
                   || (exists k :: k in v.assignments && v.assignments[k].agentName == a.agentName && v.assignments[k].assignmentId != a.assignmentId)
                   || a.executionId !in v.executions || v.executions[a.executionId].agentName != None
                   || v.executions[a.executionId].workItemId != a.workItemId
    ensures e.body.AgentIdentityRegistered? ==>
              var r := e.body.registration;
              ApplyAgents(w, v, e).Err?
              <==> || (r.registrationId in v.registrations && v.registrations[r.registrationId] != r) || r.nodeId !in w.nodes
                   || (r.registrationId !in v.registrations
                       && (|| r.agentName == "Nagi" || (exists k :: k in v.assignments && v.assignments[k].agentName == r.agentName)
                           || (exists k :: k in v.registrations && v.registrations[k].agentName == r.agentName)))
  {
  }

  /** What the handlers of notifications raise on. */
  lemma NotificationRaises(w: WorkView, v: AgentView, e: Event)
    ensures e.body.NotificationDelivered? ==>
              var n := e.body.notification;
              ApplyAgents(w, v, e).Err?
              <==> || (n.notificationId in v.notifications && v.notifications[n.notificationId] != n)
                   || (n.sourceKind == AgentToAgent && !ValidAgentMessage(w, v, n))
    ensures e.body.NotificationPromoted? ==>
              (ApplyAgents(w, v, e).Err?
               <==> || e.streamId !in v.notifications || e.body.promotedTo !in w.items || !v.notifications[e.streamId].requiresWorkItem
                    || (v.notifications[e.streamId].promotedWorkItemId != None
                        && v.notifications[e.streamId].promotedWorkItemId != Some(e.body.promotedTo)))
  {
    hide ValidAgentMessage;
  }

  /** What the handlers of effects raise on. */
  lemma EffectRaises(v: EffectView, e: Event)
    requires !e.body.ActivationEvent? && AreaOf(e.body).EffectArea?
    ensures ApplyEffects(v, e).Err?
            <==> (e.body.EffectActivated? || e.body.EffectResultUnknown? || e.body.EffectReconciled?) && e.streamId !in v.leases
  {
  }

  /** What the handlers of routes raise on; a retirement is checked again. */
  lemma RouteRaises(routes: map<Id, RouteSnapshot>, e: Event)
    requires !e.body.ActivationEvent? && AreaOf(e.body).RouteArea?
    ensures ApplyRoutes(routes, e).Err?
            <==> !e.body.RouteRegistered?
                 && (|| e.streamId !in routes
                     || (e.body.RouteRetired?
                         && var r, reason, replacement := routes[e.streamId], e.body.retirement, e.body.replacement;
                            || e.actorType != Human || e.actorId == None || r.state != Published
                            || (reason == RouteDecommissioned && replacement != None)
                            || (reason == SupersededByApproved
                                && (|| replacement == None || replacement.value == r.snapshotId || replacement.value !in routes
                                    || routes[replacement.value].routeKey != r.routeKey
                                    || (routes[replacement.value].state != OwnerApproved && routes[replacement.value].state != Published)))))
  {
  }

  /** What the activation handlers raise on. */
  lemma ActivationRaises(a: ActivationView, d: StoredEvent)
    requires d.event.body.ActivationEvent?
    ensures var c := d.event.body.change;
            ApplyActivation(a, d).Err?
            <==> || (c.HistoryImportVerified? && c.conversationId == "") || (c.SessionCheckpointed? && c.providerSessionId == "")
                 || (c.RevisionRequested? && (a.assessment == None || a.assessment.value.assessmentId != c.priorAssessmentId))
  {
  }

  /** The version of a stream that the services have seen is the larger one of the two. */
  lemma VersionSeen(v: View, id: Id)
    ensures KnownVersion(v, id) >= VersionOf(v.versions, id) && (id == v.activation.streamId ==> KnownVersion(v, id) >= v.activation.version)
    ensures KnownVersion(v, id) == VersionOf(v.versions, id) || (id == v.activation.streamId && KnownVersion(v, id) == v.activation.version)
  {
  }

  /** An event is applied only in its own data space and only as the next version of its stream. */
  lemma OnlyNextApplies(v: View, d: StoredEvent)
    ensures Apply(v, d).Ok?
            <==> d.event.dataSpaceId == v.dataSpaceId && d.event.streamVersion == KnownVersion(v, d.event.streamId) + 1 && Handle(v, d).Ok?
  {
    hide Handle;
  }
}
