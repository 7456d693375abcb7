/** What the ledger tells about one notification and one execution, and how that story relates
    to the live views in every reachable state. The audit traces rest on these facts. */
module Stories {
  import opened Models
  import opened Events
  import opened Ledger
  import opened Views
  import opened Commands
  import opened Consistency
  import opened Runs

  function DeliveryOf(id: Id): StoredEvent -> bool {
    (d: StoredEvent) => d.event.body.NotificationDelivered? && d.event.body.notification.notificationId == id
  }

  function PromotionOf(id: Id): StoredEvent -> bool {
    (d: StoredEvent) => d.event.body.NotificationPromoted? && (d.event.streamId == id || d.event.body.notificationId == id)
  }

  function NamingOf(id: Id): StoredEvent -> bool {
    (d: StoredEvent) => d.event.body.AgentNameAssigned? && d.event.body.assignment.executionId == id
  }

  function ReceiptOf(id: Id): StoredEvent -> bool {
    (d: StoredEvent) => d.event.body.ReceiptRecorded? && (d.event.streamId == id || d.event.body.record.executionId == id)
  }

  // ---- which stream an event is on

  predicate OnOwnStream(d: StoredEvent) {
    match d.event.body
    case NotificationDelivered(n) => d.event.streamId == n.notificationId
    case NotificationPromoted(id, _) => d.event.streamId == id
    case AgentNameAssigned(a) => d.event.streamId == a.assignmentId
    case ReceiptRecorded(r) => d.event.streamId == r.executionId
    case _ => true
  }

  lemma AdmittedOnOwnStream(v: View, step: Step, d: StoredEvent)
    requires InArea(step, AgentArea) && AdmitsAgents(v, step) && d.event.body == step.body && d.event.streamId == step.streamId
    ensures OnOwnStream(d)
  {
    hide ValidAgentMessage, NameRegistered;
  }

  /** Notifications, promotions, name assignments and receipts are recorded on the stream of their subject. */
  lemma EventsOnOwnStreams(s: Sys, d: StoredEvent)
    requires Reachable(s) && d in s.log
    ensures OnOwnStream(d)
  {
    hide Reachable, Moves, At, AdmitsAgents, ApplyAgents;
    var i :| 0 <= i < |s.log| && s.log[i] == d;
    var step := EventAdmitted(s, i);
    AgentMove(At(s, i), step, At(s, i + 1));
    if InArea(step, AgentArea) {
      AdmittedOnOwnStream(At(s, i).view, step, d);
    }
  }

  // ---- the story of a notification

  /** A known notification was delivered once, as it is now but for a promotion; one delivered unpromoted
      has at most one promotion, recorded exactly when it shows a work item. */
  ghost predicate NotificationStory(log: seq<StoredEvent>, id: Id, n: Notification, items: map<Id, WorkItem>) {
    var delivered, promoted := Filter(log, DeliveryOf(id)), Filter(log, PromotionOf(id));
    && |delivered| == 1 && delivered[0].event.body.NotificationDelivered?
    && var original := delivered[0].event.body.notification;
       && n == original.(promotedWorkItemId := n.promotedWorkItemId)
       && if original.promotedWorkItemId.Some? then promoted == [] && n == original
          else if promoted == [] then n == original
          else |promoted| == 1 && n.promotedWorkItemId.Some?
               && promoted[0].event.body == NotificationPromoted(id, n.promotedWorkItemId.value)
               && n.promotedWorkItemId.value in items
  }

  ghost predicate NotificationStories(s: Sys) {
    forall id :: StoryOrNone(s.log, id, s.view.agents.notifications, s.view.work.items)
  }

  /** The notification of one identity before and after an agent event. */
  lemma NotificationApplied(v: View, step: Step, d: StoredEvent, agents: AgentView, id: Id)
    requires AdmitsAgents(v, step) && d.event.body == step.body && d.event.streamId == step.streamId
    requires ApplyAgents(v.work, v.agents, d.event) == Ok(agents)
    ensures NotificationChange(v.agents.notifications, v.work.items, d, agents.notifications, id)
  {
    hide ValidAgentMessage, NameRegistered, AssignmentFor, PauseHostExecutions;
  }

  lemma ItemsStay(p: Sys, step: Step, s: Sys)
    requires Moves(p, step, s) && WorkConsistent(p.view.work)
    ensures p.view.work.items.Keys <= s.view.work.items.Keys
  {
    hide Moves, AdmitsWork, ApplyWork, WorkConsistent;
    WorkMove(p, step, s);
    if InArea(step, WorkArea) {
      WorkAccepted(p.view, step, EventOf(p.view, step));
    }
  }

  lemma NotificationMove(p: Sys, step: Step, s: Sys, id: Id)
    requires Moves(p, step, s)
    ensures NotificationChange(p.view.agents.notifications, p.view.work.items, StoredFor(p, step), s.view.agents.notifications, id)
  {
    hide Moves, AdmitsAgents, ApplyAgents;
    AgentMove(p, step, s);
    if InArea(step, AgentArea) {
      NotificationApplied(p.view, step, StoredFor(p, step), s.view.agents, id);
    }
  }

  /** How a notification's part of the views changes with an event. */
  predicate NotificationChange(before: map<Id, Notification>, items: map<Id, WorkItem>, d: StoredEvent, after: map<Id, Notification>, id: Id) {
    && (DeliveryOf(id)(d) ==> id !in before && id in after && after[id] == d.event.body.notification)
    && (PromotionOf(id)(d) ==>
          && id in before && before[id].promotedWorkItemId.None?
          && d.event.body == NotificationPromoted(id, d.event.body.promotedTo) && d.event.body.promotedTo in items
          && id in after && after[id] == before[id].(promotedWorkItemId := Some(d.event.body.promotedTo)))
    && (!DeliveryOf(id)(d) && !PromotionOf(id)(d) ==>
          (id in after <==> id in before) && (id in after ==> after[id] == before[id]))
  }

  /** Known notifications have their story, unknown ones have none. */
  ghost predicate StoryOrNone(log: seq<StoredEvent>, id: Id, ns: map<Id, Notification>, items: map<Id, WorkItem>) {
    if id in ns then NotificationStory(log, id, ns[id], items)
    else Filter(log, DeliveryOf(id)) == [] && Filter(log, PromotionOf(id)) == []
  }

  lemma NotificationGoesOn(log: seq<StoredEvent>, d: StoredEvent, before: map<Id, Notification>, items: map<Id, WorkItem>,
      after: map<Id, Notification>, more: map<Id, WorkItem>, id: Id)
    requires StoryOrNone(log, id, before, items) && NotificationChange(before, items, d, after, id) && items.Keys <= more.Keys
    ensures StoryOrNone(log + [d], id, after, more)
  {
    FilterSnoc(log, d, DeliveryOf(id));
    FilterSnoc(log, d, PromotionOf(id));
  }

  lemma NotificationStoriesStep(p: Sys, step: Step, s: Sys)
    requires Moves(p, step, s) && NotificationStories(p) && WorkConsistent(p.view.work)
    ensures NotificationStories(s)
  {
    hide Moves, WorkConsistent, StoryOrNone, NotificationChange;
    LogGrows(p, step, s);
    ItemsStay(p, step, s);
    forall id ensures StoryOrNone(s.log, id, s.view.agents.notifications, s.view.work.items) {
      NotificationMove(p, step, s, id);
      NotificationGoesOn(p.log, StoredFor(p, step), p.view.agents.notifications, p.view.work.items,
                         s.view.agents.notifications, s.view.work.items, id);
    }
  }

  lemma {:induction false} AllNotificationStories(s: Sys)
    requires Reachable(s)
    ensures NotificationStories(s)
    decreases |s.log|
  {
    hide Reachable, Moves, WorkConsistent, AgentsConsistent, RoutesKeyed;
    if s.log == [] {
      AtStart(s);
    } else {
      hide NotificationStories;
      var p, step := Before(s);
      AllNotificationStories(p);
      KnownReferences(p);
      NotificationStoriesStep(p, step, s);
    }
  }

  // ---- the story of an execution

  /** At most one name assignment and one receipt are recorded for an execution. The assignment is the one the
      views know; the receipt carries the name exactly when the assignment was recorded before it. */
  ghost predicate ExecutionStory(log: seq<StoredEvent>, id: Id, agents: AgentView) {
    var namings, receipts := Filter(log, NamingOf(id)), Filter(log, ReceiptOf(id));
    && |namings| <= 1 && |receipts| <= 1
    && (namings != [] ==>
          && id in agents.executions && namings[0].event.body.AgentNameAssigned?
          && var a := namings[0].event.body.assignment;
             && agents.executions[id].agentName == Some(a.agentName)
             && a.workItemId == agents.executions[id].workItemId && a.executionId == id
             && a.assignmentId in agents.assignments && agents.assignments[a.assignmentId] == a
             && namings[0].cursor <= |log|)
    && (receipts != [] ==>
          && id in agents.executions && receipts[0].event.body.ReceiptRecorded?
          && !agents.executions[id].state.Requested?
          && var r := receipts[0].event.body.record;
             && r.workItemId == agents.executions[id].workItemId && r.executionId == id
             && receipts[0].cursor <= |log|
             && (namings == [] ==> r.agentName == agents.executions[id].agentName)
             && (namings != [] ==> (namings[0].cursor < receipts[0].cursor <==> r.agentName == agents.executions[id].agentName)))
    && (forall k :: k in agents.assignments && agents.assignments[k].executionId == id ==> namings != [])
  }

  ghost predicate ExecutionStories(s: Sys) {
    forall id :: ExecutionStory(s.log, id, s.view.agents)
  }

  /** One execution and its assignments before and after an agent event. */
  predicate ExecutionChange(before: AgentView, d: StoredEvent, after: AgentView, id: Id) {
    && (id in before.executions ==>
          && id in after.executions && after.executions[id].workItemId == before.executions[id].workItemId
          && (!NamingOf(id)(d) ==> after.executions[id].agentName == before.executions[id].agentName)
          && (!before.executions[id].state.Requested? ==> !after.executions[id].state.Requested?))
    && (NamingOf(id)(d) ==>
          && id in before.executions && before.executions[id].agentName.None?
          && var a := d.event.body.assignment;
             && after.executions[id].agentName == Some(a.agentName) && a.workItemId == before.executions[id].workItemId
             && a.assignmentId in after.assignments && after.assignments[a.assignmentId] == a)
    && (ReceiptOf(id)(d) ==>
          && id in before.executions && before.executions[id].state.Requested?
          && !after.executions[id].state.Requested?
          && var r := d.event.body.record;
             r.executionId == id && r.workItemId == before.executions[id].workItemId && r.agentName == before.executions[id].agentName)
    && (forall k :: k in before.assignments ==> k in after.assignments && after.assignments[k] == before.assignments[k])
    && (forall k :: k in after.assignments && k !in before.assignments ==> NamingOf(after.assignments[k].executionId)(d))
  }

  lemma ExecutionApplied(v: View, step: Step, d: StoredEvent, agents: AgentView, id: Id)
    requires AdmitsAgents(v, step) && d.event.body == step.body && d.event.streamId == step.streamId
    requires ApplyAgents(v.work, v.agents, d.event) == Ok(agents)
    ensures ExecutionChange(v.agents, d, agents, id)
  {
    hide ValidAgentMessage, NameRegistered;
  }

  lemma QuietChange(before: AgentView, d: StoredEvent, after: AgentView, workItemId: Id, id: Id)
    requires after == before || after == before.(executions := PauseWorkExecutions(before.executions, workItemId))
    requires !NamingOf(id)(d) && !ReceiptOf(id)(d)
    ensures ExecutionChange(before, d, after, id)
  {
  }

  lemma ExecutionMoved(p: Sys, step: Step, s: Sys, id: Id)
    requires Moves(p, step, s)
    ensures ExecutionChange(p.view.agents, StoredFor(p, step), s.view.agents, id)
  {
    hide Moves, AdmitsAgents, ApplyAgents, ExecutionChange, PauseWorkExecutions;
    AgentMove(p, step, s);
    if InArea(step, AgentArea) {
      ExecutionApplied(p.view, step, StoredFor(p, step), s.view.agents, id);
    } else {
      QuietChange(p.view.agents, StoredFor(p, step), s.view.agents, step.streamId, id);
    }
  }

  /** The story goes on with each event. */
  lemma StoryGoesOn(log: seq<StoredEvent>, d: StoredEvent, before: AgentView, after: AgentView, id: Id)
    requires ExecutionStory(log, id, before) && ExecutionChange(before, d, after, id) && d.cursor == |log| + 1
    ensures ExecutionStory(log + [d], id, after)
  {
    FilterSnoc(log, d, NamingOf(id));
    FilterSnoc(log, d, ReceiptOf(id));
  }

  lemma {:induction false} AllExecutionStories(s: Sys)
    requires Reachable(s)
    ensures ExecutionStories(s)
    decreases |s.log|
  {
    hide Reachable, Moves, ExecutionChange;
    if s.log == [] {
      AtStart(s);
    } else {
      hide ExecutionStory;
      var p, step := Before(s);
      AllExecutionStories(p);
      LogGrows(p, step, s);
      forall id ensures ExecutionStory(s.log, id, s.view.agents) {
        ExecutionMoved(p, step, s, id);
        StoryGoesOn(p.log, StoredFor(p, step), p.view.agents, s.view.agents, id);
      }
    }
  }
}
