/** The audit reader. Its fast path reads one stream, its canonical path the whole ledger;
    in every reachable state both give the same answer, and exactly the chains that were
    recorded in order are verified. */
module Audit {
  import opened Models
  import opened Events
  import opened Ledger
  import opened Views
  import opened Commands
  import opened Consistency
  import opened Activation
  import opened KernelService
  import opened Runs
  import opened Stories

  datatype EventRef = EventRef(cursor: nat, eventId: EventId, eventType: string, streamId: Id, streamVersion: nat, occurredAt: Time)

  function RefOf(d: StoredEvent): EventRef {
    EventRef(d.cursor, d.event.eventId, EventType(d.event.body), d.event.streamId, d.event.streamVersion, d.event.occurredAt)
  }

  datatype NotificationTrace = NotificationTrace(
    notificationId: Id, sourceMessageId: string, incoming: string, recipient: string,
    delivery: EventRef, workItemId: Option<Id>, withWorkItem: bool, timeline: seq<EventRef>)

  datatype ExecutionTrace = ExecutionTrace(
    executionId: Id, agentName: string, assignmentId: Id, workItem: WorkItem,
    receiptId: Id, status: ReceiptStatus, providerSessionId: Option<string>, assignment: EventRef, receipt: EventRef)

  // ---- the validators

  /** Exactly one delivery, at most one promotion, and both agree with the projected notification. */
  function ValidateNotification(items: map<Id, WorkItem>, id: Id, n: Notification, events: seq<StoredEvent>): Result<NotificationTrace> {
    var delivered, promotions := Filter(events, DeliveryOf(id)), Filter(events, PromotionOf(id));
    if |delivered| != 1 || |promotions| > 1 then Err(InvariantViolation)
    else if n.promotedWorkItemId.Some? && promotions == [] then Err(InvariantViolation)
    else match delivered[0].event.body
      case NotificationDelivered(original) => (
        if original != n.(promotedWorkItemId := None) then Err(InvariantViolation)
        else if promotions == [] then Ok(TraceOf(n, delivered[0], []))
        else match promotions[0].event.body
          case NotificationPromoted(_, target) =>
            if target == "" || n.promotedWorkItemId != Some(target) || target !in items then Err(InvariantViolation)
            else Ok(TraceOf(n, delivered[0], promotions))
          case _ => Err(InvariantViolation))
      case _ => Err(InvariantViolation)
  }

  function TraceOf(n: Notification, delivered: StoredEvent, promotions: seq<StoredEvent>): NotificationTrace {
    NotificationTrace(n.notificationId, n.sourceMessageId, n.note, n.recipientAgentName, RefOf(delivered), n.promotedWorkItemId,
      promotions != [], [RefOf(delivered)] + seq(|promotions|, i requires 0 <= i < |promotions| => RefOf(promotions[i])))
  }

  /** One assignment, one receipt, and the same name, work item and execution in both and in the projection. */
  function ValidateExecution(id: Id, x: Execution, w: WorkItem, namings: seq<StoredEvent>, receipts: seq<StoredEvent>): Result<ExecutionTrace> {
    if x.agentName.None? || |namings| != 1 || |receipts| != 1 then Err(InvariantViolation)
    else match namings[0].event.body
      case AgentNameAssigned(a) => (
        if || a.assignmentId == "" || a.agentName == "" || Some(a.agentName) != x.agentName
           || a.workItemId != x.workItemId || a.executionId != id
        then Err(InvariantViolation)
        else match receipts[0].event.body
          case ReceiptRecorded(r) =>
            if r.agentName != Some(a.agentName) || r.workItemId != w.workItemId || r.executionId != id || r.report.receiptId == ""
            then Err(InvariantViolation)
            else Ok(ExecutionTrace(id, a.agentName, a.assignmentId, w, r.report.receiptId, r.report.status, r.report.providerSessionId,
                                   RefOf(namings[0]), RefOf(receipts[0])))
          case _ => Err(InvariantViolation))
      case _ => Err(InvariantViolation)
  }

  // ---- the two ways to read

  /** Reads the notification's own stream. */
  function FastNotification(v: View, log: seq<StoredEvent>, id: Id): Result<NotificationTrace> {
    if id !in v.agents.notifications then Err(InvariantViolation)
    else ValidateNotification(v.work.items, id, v.agents.notifications[id], StreamEvents(log, id))
  }

  /** Reads the whole ledger. */
  function CanonicalNotification(v: View, log: seq<StoredEvent>, id: Id): Result<NotificationTrace> {
    if id !in v.agents.notifications then Err(InvariantViolation)
    else ValidateNotification(v.work.items, id, v.agents.notifications[id], log)
  }

  function IsAssignment(): StoredEvent -> bool {
    (d: StoredEvent) => d.event.body.AgentNameAssigned?
  }

  function IsReceiptEvent(): StoredEvent -> bool {
    (d: StoredEvent) => d.event.body.ReceiptRecorded?
  }

  /** The assignments that the projection knows for an execution. */
  function AssignmentsOf(a: AgentView, executionId: Id): set<Id> {
    set k | k in a.assignments && a.assignments[k].executionId == executionId
  }

  /** The name assignments on the stream of the only assignment; none when it is not unique. */
  ghost function StreamNamings(v: View, log: seq<StoredEvent>, id: Id): seq<StoredEvent> {
    var known := AssignmentsOf(v.agents, id);
    if |known| == 1 then
      var k :| k in known;
      Filter(StreamEvents(log, k), IsAssignment())
    else []
  }

  /** Reads the stream of the execution's assignment and the execution's own stream. */
  ghost function FastExecution(v: View, log: seq<StoredEvent>, id: Id): Result<ExecutionTrace> {
    if id !in v.agents.executions || v.agents.executions[id].workItemId !in v.work.items then Err(InvariantViolation)
    else ValidateExecution(id, v.agents.executions[id], v.work.items[v.agents.executions[id].workItemId],
                           StreamNamings(v, log, id), Filter(StreamEvents(log, id), IsReceiptEvent()))
  }

  function CanonicalExecution(v: View, log: seq<StoredEvent>, id: Id): Result<ExecutionTrace> {
    if id !in v.agents.executions || v.agents.executions[id].workItemId !in v.work.items then Err(InvariantViolation)
    else ValidateExecution(id, v.agents.executions[id], v.work.items[v.agents.executions[id].workItemId],
                           Filter(log, NamingOf(id)), Filter(log, ReceiptOf(id)))
  }

  // ---- fast equals canonical

  /** In every reachable state both ways to read a notification give the same trace or both refuse. */
  lemma FastNotificationIsCanonical(s: Sys, id: Id)
    requires Reachable(s)
    ensures FastNotification(s.view, s.log, id) == CanonicalNotification(s.view, s.log, id)
  {
    hide Reachable;
    forall d | d in s.log && (DeliveryOf(id)(d) || PromotionOf(id)(d)) ensures OnStream(id)(d) {
      EventsOnOwnStreams(s, d);
    }
    FilterWithin(s.log, OnStream(id), DeliveryOf(id));
    FilterWithin(s.log, OnStream(id), PromotionOf(id));
  }

  lemma OneElement<T>(xs: set<T>, a: T, b: T)
    requires |xs| == 1 && a in xs && b in xs
    ensures a == b
  {
    assert |xs - {a}| == 0;
  }

  lemma Unfilterable<T(!new)>(xs: seq<T>, keep: T -> bool)
    requires forall x :: x in xs ==> !keep(x)
    ensures Filter(xs, keep) == []
  {
    FilterMembers(xs, keep);
    if Filter(xs, keep) != [] {
      assert Filter(xs, keep)[0] in Filter(xs, keep);
    }
  }

  /** An execution has at most one known assignment. */
  lemma AtMostOneAssignment(a: AgentView, items: map<Id, WorkItem>, id: Id)
    requires AgentsConsistent(a, items)
    ensures |AssignmentsOf(a, id)| <= 1
    ensures forall k :: k in AssignmentsOf(a, id) ==> AssignmentsOf(a, id) == {k}
  {
    if k :| k in AssignmentsOf(a, id) {
      forall j | j in AssignmentsOf(a, id) ensures j == k {
        assert AssignmentLinked(a.assignments[j], j, a.executions) && AssignmentLinked(a.assignments[k], k, a.executions);
      }
      assert AssignmentsOf(a, id) == {k};
    }
  }

  /** A recorded assignment is the one the views know under its identity. */
  lemma RecordedAssignmentKnown(s: Sys, d: StoredEvent)
    requires ExecutionStories(s) && d in s.log && d.event.body.AgentNameAssigned?
    ensures var a := d.event.body.assignment;
            a.assignmentId in s.view.agents.assignments && s.view.agents.assignments[a.assignmentId] == a
  {
    var id := d.event.body.assignment.executionId;
    assert ExecutionStory(s.log, id, s.view.agents);
    FilterMembers(s.log, NamingOf(id));
    assert d in Filter(s.log, NamingOf(id));
  }

  /** The assignments on the stream of the only known assignment are those recorded for the execution. */
  lemma StreamNamingsAreAll(s: Sys, id: Id)
    requires Reachable(s)
    ensures StreamNamings(s.view, s.log, id) == Filter(s.log, NamingOf(id))
  {
    hide Reachable, WorkConsistent, RoutesKeyed, AgentsConsistent, ExecutionStories;
    KnownReferences(s);
    AllExecutionStories(s);
    AtMostOneAssignment(s.view.agents, s.view.work.items, id);
    var known := AssignmentsOf(s.view.agents, id);
    forall d | d in s.log && NamingOf(id)(d) ensures known == {d.event.body.assignment.assignmentId} {
      RecordedAssignmentKnown(s, d);
      assert d.event.body.assignment.assignmentId in known;
    }
    if |known| == 1 {
      var k :| k in known;
      OnlyNaming(s, id, k);
      forall j | j in known ensures j == k { OneElement(known, j, k); }
    } else {
      Unfilterable(s.log, NamingOf(id));
    }
  }

  lemma OnlyNaming(s: Sys, id: Id, k: Id)
    requires Reachable(s) && ExecutionStories(s)
    requires k in s.view.agents.assignments && s.view.agents.assignments[k].executionId == id
    requires forall d :: d in s.log && NamingOf(id)(d) ==> d.event.body.assignment.assignmentId == k
    ensures Filter(StreamEvents(s.log, k), IsAssignment()) == Filter(s.log, NamingOf(id))
  {
    hide Reachable, ExecutionStories;
    FilterMembers(s.log, OnStream(k));
    forall d | d in StreamEvents(s.log, k) ensures IsAssignment()(d) == NamingOf(id)(d) {
      EventsOnOwnStreams(s, d);
      if IsAssignment()(d) {
        RecordedAssignmentKnown(s, d);
      }
    }
    FilterAgree(StreamEvents(s.log, k), IsAssignment(), NamingOf(id));
    forall d | d in s.log && NamingOf(id)(d) ensures OnStream(k)(d) {
      EventsOnOwnStreams(s, d);
    }
    FilterWithin(s.log, OnStream(k), NamingOf(id));
  }

  lemma StreamReceiptsAreAll(s: Sys, id: Id)
    requires Reachable(s)
    ensures Filter(StreamEvents(s.log, id), IsReceiptEvent()) == Filter(s.log, ReceiptOf(id))
  {
    hide Reachable;
    FilterMembers(s.log, OnStream(id));
    forall d | d in s.log ensures ReceiptOf(id)(d) ==> OnStream(id)(d) {
      EventsOnOwnStreams(s, d);
    }
    FilterAgree(StreamEvents(s.log, id), IsReceiptEvent(), ReceiptOf(id));
    FilterWithin(s.log, OnStream(id), ReceiptOf(id));
  }

  /** In every reachable state both ways to read an execution give the same trace or both refuse. */
  lemma FastExecutionIsCanonical(s: Sys, id: Id)
    requires Reachable(s)
    ensures FastExecution(s.view, s.log, id) == CanonicalExecution(s.view, s.log, id)
  {
    hide Reachable, StreamNamings, ValidateExecution;
    StreamNamingsAreAll(s, id);
    StreamReceiptsAreAll(s, id);
  }

  // ---- what is verified

  lemma StoriesOf(s: Sys)
    requires Reachable(s)
    ensures GaplessCursors(s.log) && NotificationStories(s) && ExecutionStories(s)
    ensures WorkConsistent(s.view.work) && AgentsConsistent(s.view.agents, s.view.work.items)
  {
    hide Reachable, WorkConsistent, AgentsConsistent, RoutesKeyed, NotificationStories, ExecutionStories;
    hide GaplessCursors, GaplessStreams, UniqueKeys, UniqueIds, InSync, Replay, KernelAuthored, ActivationAuthored, LeasesKeyed, ActivationConsistent;
    KnownReferences(s);
    ReachableInv(s);
    AllNotificationStories(s);
    AllExecutionStories(s);
  }

  /** The notification was delivered without a promotion in its payload. */
  ghost predicate DeliveredUnpromoted(log: seq<StoredEvent>, id: Id) {
    exists d :: d in log && DeliveryOf(id)(d) && d.event.body.notification.promotedWorkItemId.None?
  }

  lemma DeliveredUnpromotedIff(log: seq<StoredEvent>, id: Id)
    requires |Filter(log, DeliveryOf(id))| == 1 && Filter(log, DeliveryOf(id))[0].event.body.NotificationDelivered?
    ensures DeliveredUnpromoted(log, id) <==> Filter(log, DeliveryOf(id))[0].event.body.notification.promotedWorkItemId.None?
  {
    FilterMembers(log, DeliveryOf(id));
    var delivered := Filter(log, DeliveryOf(id));
    assert delivered[0] in delivered;
    assert forall d :: d in delivered ==> d == delivered[0];
  }

  lemma StoryVerified(s: Sys, id: Id)
    requires id in s.view.agents.notifications
    requires NotificationStory(s.log, id, s.view.agents.notifications[id], s.view.work.items)
    ensures var r, n := CanonicalNotification(s.view, s.log, id), s.view.agents.notifications[id];
            && (r.Ok? <==> DeliveredUnpromoted(s.log, id) && n.promotedWorkItemId != Some(""))
            && (r.Ok? ==> && r.value.withWorkItem == n.promotedWorkItemId.Some? && r.value.workItemId == n.promotedWorkItemId
                          && |r.value.timeline| == if n.promotedWorkItemId.Some? then 2 else 1)
  {
    hide RefOf, DeliveredUnpromoted;
    DeliveredUnpromotedIff(s.log, id);
  }

  /** A known notification traces as verified exactly when it was delivered unpromoted (and not promoted to an empty
      identity); the trace then shows one delivery, and one promotion exactly when the notification has a work item. */
  lemma NotificationVerified(s: Sys, id: Id)
    requires Reachable(s) && id in s.view.agents.notifications
    ensures var r, n := FastNotification(s.view, s.log, id), s.view.agents.notifications[id];
            && (r.Ok? <==> DeliveredUnpromoted(s.log, id) && n.promotedWorkItemId != Some(""))
            && (r.Ok? ==> && r.value.withWorkItem == n.promotedWorkItemId.Some? && r.value.workItemId == n.promotedWorkItemId
                          && |r.value.timeline| == if n.promotedWorkItemId.Some? then 2 else 1)
  {
    hide Reachable, WorkConsistent, AgentsConsistent, ExecutionStories, GaplessCursors, NotificationStory,
      FastNotification, CanonicalNotification, DeliveredUnpromoted;
    FastNotificationIsCanonical(s, id);
    StoriesOf(s);
    assert StoryOrNone(s.log, id, s.view.agents.notifications, s.view.work.items);
    StoryVerified(s, id);
  }

  /** The assignment and receipt payloads carry non-empty identities. */
  predicate NamingComplete(d: StoredEvent, id: Id) {
    NamingOf(id)(d) && d.event.body.assignment.assignmentId != "" && d.event.body.assignment.agentName != ""
  }

  predicate ReceiptComplete(d: StoredEvent, id: Id) {
    ReceiptOf(id)(d) && d.event.body.record.report.receiptId != ""
  }

  /** The execution was named before its receipt was recorded. */
  ghost predicate NamedThenReceived(log: seq<StoredEvent>, id: Id) {
    exists i, j :: 0 <= i < j < |log| && NamingComplete(log[i], id) && ReceiptComplete(log[j], id)
  }

  lemma OnlyMember(xs: seq<StoredEvent>, keep: StoredEvent -> bool, i: nat)
    requires |Filter(xs, keep)| <= 1 && i < |xs| && keep(xs[i])
    ensures Filter(xs, keep) == [xs[i]]
  {
    FilterMembers(xs, keep);
    assert xs[i] in Filter(xs, keep);
  }

  lemma MemberAt(xs: seq<StoredEvent>, keep: StoredEvent -> bool) returns (i: nat)
    requires |Filter(xs, keep)| == 1
    ensures i < |xs| && keep(xs[i]) && xs[i] == Filter(xs, keep)[0]
  {
    FilterMembers(xs, keep);
    assert Filter(xs, keep)[0] in Filter(xs, keep);
    i :| 0 <= i < |xs| && xs[i] == Filter(xs, keep)[0];
  }

  lemma WorkOfExecution(v: View, id: Id)
    requires WorkConsistent(v.work) && AgentsConsistent(v.agents, v.work.items) && id in v.agents.executions
    ensures var w := v.agents.executions[id].workItemId; w in v.work.items && v.work.items[w].workItemId == w
  {
  }

  lemma VerifiedWhenNamedThenReceived(s: Sys, id: Id, i: nat, j: nat)
    requires GaplessCursors(s.log) && ExecutionStory(s.log, id, s.view.agents)
    requires WorkConsistent(s.view.work) && AgentsConsistent(s.view.agents, s.view.work.items)
    requires i < j < |s.log| && NamingComplete(s.log[i], id) && ReceiptComplete(s.log[j], id)
    ensures CanonicalExecution(s.view, s.log, id).Ok?
  {
    hide RefOf, WorkConsistent, AgentsConsistent;
    OnlyMember(s.log, NamingOf(id), i);
    OnlyMember(s.log, ReceiptOf(id), j);
    WorkOfExecution(s.view, id);
  }

  lemma NamedThenReceivedWhenVerified(s: Sys, id: Id)
    requires GaplessCursors(s.log) && ExecutionStory(s.log, id, s.view.agents)
    requires CanonicalExecution(s.view, s.log, id).Ok?
    ensures NamedThenReceived(s.log, id)
  {
    hide RefOf;
    var i := MemberAt(s.log, NamingOf(id));
    var j := MemberAt(s.log, ReceiptOf(id));
    assert NamingComplete(s.log[i], id) && ReceiptComplete(s.log[j], id);
  }

  /** An execution traces as verified exactly when its name assignment precedes its receipt in the ledger. */
  lemma ExecutionVerified(s: Sys, id: Id)
    requires Reachable(s)
    ensures FastExecution(s.view, s.log, id).Ok? <==> NamedThenReceived(s.log, id)
  {
    hide Reachable, WorkConsistent, AgentsConsistent, NotificationStories, GaplessCursors, FastExecution, CanonicalExecution, ExecutionStory,
      NamingComplete, ReceiptComplete;
    FastExecutionIsCanonical(s, id);
    StoriesOf(s);
    assert ExecutionStory(s.log, id, s.view.agents);
    if i, j :| 0 <= i < j < |s.log| && NamingComplete(s.log[i], id) && ReceiptComplete(s.log[j], id) {
      VerifiedWhenNamedThenReceived(s, id, i, j);
    }
    if CanonicalExecution(s.view, s.log, id).Ok? {
      NamedThenReceivedWhenVerified(s, id);
    }
  }

  /** As soon as the receipt of a named execution is recorded, its trace is verified. */
  lemma ReceiptCompletesTrace(s: Sys, id: Id, k: Id)
    requires Reachable(s) && s.log != [] && ReceiptComplete(s.log[|s.log| - 1], id)
    requires k in s.view.agents.assignments && s.view.agents.assignments[k].executionId == id
    requires k != "" && s.view.agents.assignments[k].agentName != ""
    ensures FastExecution(s.view, s.log, id).Ok?
  {
    hide Reachable, NotificationStories, GaplessCursors, FastExecution, WorkConsistent;
    StoriesOf(s);
    assert ExecutionStory(s.log, id, s.view.agents);
    var i := MemberAt(s.log, NamingOf(id));
    var a := s.log[i].event.body.assignment;
    AtMostOneAssignment(s.view.agents, s.view.work.items, id);
    assert k in AssignmentsOf(s.view.agents, id) && a.assignmentId in AssignmentsOf(s.view.agents, id);
    assert NamingComplete(s.log[i], id);
    ExecutionVerified(s, id);
  }

  /** No later command can break a verified execution trace. */
  lemma TracesStayVerified(s: Sys, i: nat, j: nat, id: Id)
    requires Reachable(s) && i <= j <= |s.log|
    requires FastExecution(At(s, i).view, At(s, i).log, id).Ok?
    ensures FastExecution(At(s, j).view, At(s, j).log, id).Ok?
  {
    hide Reachable, At, FastExecution, NamingComplete, ReceiptComplete;
    PrefixReachable(s, i);
    PrefixReachable(s, j);
    ExecutionVerified(At(s, i), id);
    ExecutionVerified(At(s, j), id);
    var early, late := At(s, i).log, At(s, j).log;
    var n, m :| 0 <= n < m < |early| && NamingComplete(early[n], id) && ReceiptComplete(early[m], id);
    assert late[n] == early[n] && late[m] == early[m];
  }

  // ---- what a trace shows

  /** The reference is to the `n`-th event of the ledger, of this type. */
  predicate Refers(e: EventRef, log: seq<StoredEvent>, n: nat, eventType: string) {
    && n < |log| && e.cursor == n + 1 && e.eventType == eventType && e.eventId == log[n].event.eventId
    && e.streamId == log[n].event.streamId && e.streamVersion == log[n].event.streamVersion && e.occurredAt == log[n].event.occurredAt
  }

  /** The trace shows the naming at `i` and the receipt at `j`, with what their payloads say. */
  predicate ShowsExecution(t: ExecutionTrace, log: seq<StoredEvent>, id: Id, i: nat, j: nat) {
    && i < j < |log| && NamingComplete(log[i], id) && ReceiptComplete(log[j], id)
    && Refers(t.assignment, log, i, "agent_name_assigned") && Refers(t.receipt, log, j, "pilot_execution_receipt_recorded")
    && t.executionId == id
    && var a, r := log[i].event.body.assignment, log[j].event.body.record;
       && t.agentName == a.agentName && t.assignmentId == a.assignmentId && t.workItem.workItemId == a.workItemId == r.workItemId
       && r.agentName == Some(a.agentName)
       && t.receiptId == r.report.receiptId && t.status == r.report.status && t.providerSessionId == r.report.providerSessionId
  }

  lemma CanonicalShows(s: Sys, id: Id, i: nat, j: nat)
    requires GaplessCursors(s.log) && ExecutionStory(s.log, id, s.view.agents)
    requires WorkConsistent(s.view.work) && AgentsConsistent(s.view.agents, s.view.work.items)
    requires i < j < |s.log| && NamingComplete(s.log[i], id) && ReceiptComplete(s.log[j], id)
    ensures var r := CanonicalExecution(s.view, s.log, id);
            r.Ok? && ShowsExecution(r.value, s.log, id, i, j)
            && id in s.view.agents.executions && s.view.agents.executions[id].workItemId in s.view.work.items
            && r.value.workItem == s.view.work.items[s.view.agents.executions[id].workItemId]
  {
    hide ShowsExecution, ValidateExecution, RefOf;
    OnlyMember(s.log, NamingOf(id), i);
    OnlyMember(s.log, ReceiptOf(id), j);
    WorkOfExecution(s.view, id);
    VerifiedWhenNamedThenReceived(s, id, i, j);
    ValidatedShows(s.log, id, s.view.agents.executions[id], s.view.work.items[s.view.agents.executions[id].workItemId], i, j);
  }

  lemma ValidatedShows(log: seq<StoredEvent>, id: Id, x: Execution, w: WorkItem, i: nat, j: nat)
    requires GaplessCursors(log) && i < j < |log| && NamingComplete(log[i], id) && ReceiptComplete(log[j], id)
    requires w.workItemId == x.workItemId && ValidateExecution(id, x, w, [log[i]], [log[j]]).Ok?
    ensures ShowsExecution(ValidateExecution(id, x, w, [log[i]], [log[j]]).value, log, id, i, j)
    ensures ValidateExecution(id, x, w, [log[i]], [log[j]]).value.workItem == w
  {
    hide EventType;
    TracedTypes(log[i].event.body);
    TracedTypes(log[j].event.body);
  }

  lemma TracedTypes(b: EventBody)
    ensures b.AgentNameAssigned? ==> EventType(b) == "agent_name_assigned"
    ensures b.ReceiptRecorded? ==> EventType(b) == "pilot_execution_receipt_recorded"
    ensures b.NotificationDelivered? ==> EventType(b) == "agent_notification_delivered"
    ensures b.NotificationPromoted? ==> EventType(b) == "agent_notification_promoted"
  {
  }

  /** Whenever an execution traces as verified, the trace shows the recorded naming and, after it, the recorded receipt,
      and the work item as it is now. */
  lemma ExecutionTraceShows(s: Sys, id: Id) returns (i: nat, j: nat)
    requires Reachable(s) && FastExecution(s.view, s.log, id).Ok?
    ensures var t := FastExecution(s.view, s.log, id).value;
            && ShowsExecution(t, s.log, id, i, j)
            && id in s.view.agents.executions && s.view.agents.executions[id].workItemId in s.view.work.items
            && t.workItem == s.view.work.items[s.view.agents.executions[id].workItemId]
  {
    hide Reachable, WorkConsistent, AgentsConsistent, NotificationStories, GaplessCursors, FastExecution, CanonicalExecution, ExecutionStory,
      NamingComplete, ReceiptComplete, ShowsExecution;
    FastExecutionIsCanonical(s, id);
    ExecutionVerified(s, id);
    StoriesOf(s);
    assert ExecutionStory(s.log, id, s.view.agents);
    i, j :| 0 <= i < j < |s.log| && NamingComplete(s.log[i], id) && ReceiptComplete(s.log[j], id);
    CanonicalShows(s, id, i, j);
  }

  /** Later commands leave a verified trace as it is, but for the state of the work item. */
  lemma TracesStayTheSame(s: Sys, i: nat, j: nat, id: Id)
    requires Reachable(s) && i <= j <= |s.log|
    requires FastExecution(At(s, i).view, At(s, i).log, id).Ok?
    ensures var early, late := FastExecution(At(s, i).view, At(s, i).log, id), FastExecution(At(s, j).view, At(s, j).log, id);
            late.Ok? && late.value == early.value.(workItem := late.value.workItem) && late.value.workItem.workItemId == early.value.workItem.workItemId
  {
    hide Reachable, At, FastExecution, ShowsExecution;
    PrefixReachable(s, i);
    PrefixReachable(s, j);
    TracesStayVerified(s, i, j, id);
    var n, m := ExecutionTraceShows(At(s, i), id);
    var n', m' := ExecutionTraceShows(At(s, j), id);
    ShownIndices(FastExecution(At(s, j).view, At(s, j).log, id).value, At(s, j).log, id, n', m');
    OneOfEach(At(s, j), id, n', m');
    SameTrace(At(s, i).log, At(s, j).log, id, FastExecution(At(s, i).view, At(s, i).log, id).value,
              FastExecution(At(s, j).view, At(s, j).log, id).value, n, m, n', m');
  }

  lemma ShownIndices(t: ExecutionTrace, log: seq<StoredEvent>, id: Id, i: nat, j: nat)
    requires ShowsExecution(t, log, id, i, j)
    ensures i < j < |log| && NamingComplete(log[i], id) && ReceiptComplete(log[j], id)
  {
  }

  /** An execution has one naming and one receipt. */
  lemma OneOfEach(s: Sys, id: Id, n: nat, m: nat)
    requires Reachable(s) && n < m < |s.log| && NamingComplete(s.log[n], id) && ReceiptComplete(s.log[m], id)
    ensures forall k :: 0 <= k < |s.log| && NamingOf(id)(s.log[k]) ==> k == n
    ensures forall k :: 0 <= k < |s.log| && ReceiptOf(id)(s.log[k]) ==> k == m
  {
    hide Reachable, WorkConsistent, AgentsConsistent, NotificationStories;
    StoriesOf(s);
    assert ExecutionStory(s.log, id, s.view.agents);
    OnlyMember(s.log, NamingOf(id), n);
    OnlyMember(s.log, ReceiptOf(id), m);
    forall k | 0 <= k < |s.log| && NamingOf(id)(s.log[k]) ensures k == n {
      OnlyMember(s.log, NamingOf(id), k);
      assert s.log[k].cursor == s.log[n].cursor;
    }
    forall k | 0 <= k < |s.log| && ReceiptOf(id)(s.log[k]) ensures k == m {
      OnlyMember(s.log, ReceiptOf(id), k);
      assert s.log[k].cursor == s.log[m].cursor;
    }
  }

  lemma SameTrace(early: seq<StoredEvent>, late: seq<StoredEvent>, id: Id, t: ExecutionTrace, u: ExecutionTrace, n: nat, m: nat, n': nat, m': nat)
    requires |early| <= |late| && early == late[..|early|]
    requires ShowsExecution(t, early, id, n, m) && ShowsExecution(u, late, id, n', m')
    requires forall k :: 0 <= k < |late| && NamingOf(id)(late[k]) ==> k == n'
    requires forall k :: 0 <= k < |late| && ReceiptOf(id)(late[k]) ==> k == m'
    ensures u == t.(workItem := u.workItem) && u.workItem.workItemId == t.workItem.workItemId
  {
    assert late[n] == early[n] && late[m] == early[m];
    assert NamingOf(id)(late[n]) && ReceiptOf(id)(late[m]);
    assert n == n' && m == m';
  }

  /** The trace shows the delivery at `i` with what its payload says, and the promotion at `j` if there is one. */
  predicate ShowsNotification(t: NotificationTrace, log: seq<StoredEvent>, id: Id, i: nat, j: Option<nat>) {
    && i < |log| && log[i].event.body.NotificationDelivered?
    && var n := log[i].event.body.notification;
       && n.notificationId == id == t.notificationId
       && t.sourceMessageId == n.sourceMessageId && t.incoming == n.note && t.recipient == n.recipientAgentName
       && Refers(t.delivery, log, i, "agent_notification_delivered")
       && match j
          case None => t.timeline == [t.delivery] && t.workItemId == n.promotedWorkItemId && !t.withWorkItem
          case Some(k) =>
            && k < |log| && log[k].event.body.NotificationPromoted? && log[k].event.body.notificationId == id
            && |t.timeline| == 2 && t.timeline[0] == t.delivery && Refers(t.timeline[1], log, k, "agent_notification_promoted")
            && t.workItemId == Some(log[k].event.body.promotedTo) && t.withWorkItem
  }

  lemma CanonicalNotificationShows(s: Sys, id: Id) returns (i: nat, j: Option<nat>)
    requires GaplessCursors(s.log) && id in s.view.agents.notifications && s.view.agents.notifications[id].notificationId == id
    requires NotificationStory(s.log, id, s.view.agents.notifications[id], s.view.work.items)
    requires CanonicalNotification(s.view, s.log, id).Ok?
    ensures ShowsNotification(CanonicalNotification(s.view, s.log, id).value, s.log, id, i, j)
    ensures j.Some? <==> s.view.agents.notifications[id].promotedWorkItemId.Some?
  {
    hide EventType;
    i := MemberAt(s.log, DeliveryOf(id));
    TracedTypes(s.log[i].event.body);
    j := None;
    if Filter(s.log, PromotionOf(id)) != [] {
      var k := MemberAt(s.log, PromotionOf(id));
      TracedTypes(s.log[k].event.body);
      j := Some(k);
    }
  }

  /** Whenever a notification traces as verified, the trace shows the recorded delivery and, exactly when there is a work
      item, the recorded promotion. */
  lemma NotificationTraceShows(s: Sys, id: Id) returns (i: nat, j: Option<nat>)
    requires Reachable(s) && FastNotification(s.view, s.log, id).Ok?
    ensures ShowsNotification(FastNotification(s.view, s.log, id).value, s.log, id, i, j)
    ensures id in s.view.agents.notifications && (j.Some? <==> s.view.agents.notifications[id].promotedWorkItemId.Some?)
  {
    hide Reachable, WorkConsistent, ExecutionStories, GaplessCursors, NotificationStory, CanonicalNotification, ShowsNotification,
      ExecutionsKnown, AssignmentsLinked, NamesDistinct, ValidateNotification;
    FastNotificationIsCanonical(s, id);
    StoriesOf(s);
    assert StoryOrNone(s.log, id, s.view.agents.notifications, s.view.work.items);
    i, j := CanonicalNotificationShows(s, id);
  }

  // ---- the reader

  /** The cursor of the event before position `k`. */
  function CursorBefore(stream: seq<StoredEvent>, k: nat): nat
    requires k <= |stream|
  {
    if k == 0 then 0 else stream[k - 1].cursor
  }

  lemma CursorStart(stream: seq<StoredEvent>)
    ensures CursorBefore(stream, 0) == 0
  {
  }

  lemma CursorStep(stream: seq<StoredEvent>, k: nat)
    requires k < |stream|
    ensures CursorBefore(stream, k + 1) == stream[k].cursor
  {
  }

  /** Reads through pages of a fixed size; it never writes. */
  class AuditTraceService {
    const kernel: Kernel
    const pageSize: int

    ghost predicate Valid()
      reads kernel, kernel.ledger
    {
      pageSize > 0 && kernel.ledger.Valid()
    }

    constructor (kernel: Kernel, pageSize: int)
      ensures this.kernel == kernel && this.pageSize == pageSize
    {
      this.kernel, this.pageSize := kernel, pageSize;
    }

    /** What the reader expects of the event at position `k` of a stream. */
    lemma StreamItem(id: Id, k: nat)
      requires Valid() && k < StreamLength(kernel.ledger.events, id)
      ensures var stream := StreamEvents(kernel.ledger.events, id);
              && stream[k].event.streamId == id && stream[k].event.streamVersion == k + 1
              && stream[k].cursor > CursorBefore(stream, k)
    {
      StreamCursorsIncrease(kernel.ledger.events, id);
      FilterMembers(kernel.ledger.events, OnStream(id));
      assert StreamEvents(kernel.ledger.events, id)[k] in StreamEvents(kernel.ledger.events, id);
    }

    /** The whole ledger, page by page; each cursor must follow the last. */
    method Events() returns (r: Result<seq<StoredEvent>>)
      requires Valid()
      ensures r == Ok(kernel.ledger.events)
    {
      hide Indexed, Slice, IsTake;
      ghost var log := kernel.ledger.events;
      kernel.ledger.CursorsFollow();
      var events: seq<StoredEvent>, cursor: nat := [], 0;
      TakeNone(log);
      while true
        invariant cursor <= |log| && IsTake(events, log, cursor)
        decreases |log| - cursor
      {
        var page := kernel.ledger.Page(cursor, pageSize);
        SliceItems(log, cursor, pageSize);
        if page.value == [] {
          TakeAll(events, log);
          return Ok(events);
        }
        ghost var start := cursor;
        for i := 0 to |page.value|
          invariant cursor == start + i <= |log| && IsTake(events, log, cursor)
        {
          var stored := page.value[i];
          assert stored == log[cursor];
          if stored.cursor != cursor + 1 {
            return Err(InvariantViolation);
          }
          TakeNext(events, log, cursor);
          events := events + [stored];
          cursor := stored.cursor;
        }
      }
    }

    /** One stream, page by page; versions must follow each other and cursors must increase. */
    method OfStream(streamId: Id) returns (r: Result<seq<StoredEvent>>)
      requires Valid()
      ensures r == Ok(StreamEvents(kernel.ledger.events, streamId))
    {
      hide Indexed, StreamEvents, Slice, IsTake, CursorBefore;
      ghost var stream := StreamEvents(kernel.ledger.events, streamId);
      var events: seq<StoredEvent>, version: nat, last: nat := [], 0, 0;
      TakeNone(stream);
      CursorStart(stream);
      while true
        invariant version <= |stream| && IsTake(events, stream, version) && last == CursorBefore(stream, version)
        decreases |stream| - version
      {
        var page := kernel.ledger.Stream(streamId, version, pageSize);
        SliceItems(stream, version, pageSize);
        if page.value == [] {
          TakeAll(events, stream);
          return Ok(events);
        }
        ghost var start := version;
        for i := 0 to |page.value|
          invariant version == start + i <= |stream| && IsTake(events, stream, version) && last == CursorBefore(stream, version)
        {
          var stored := page.value[i];
          assert stored == stream[version];
          StreamItem(streamId, version);
          if stored.event.streamId != streamId || stored.event.streamVersion != version + 1 || stored.cursor <= last {
            return Err(InvariantViolation);
          }
          TakeNext(events, stream, version);
          CursorStep(stream, version);
          events := events + [stored];
          version := stored.event.streamVersion;
          last := stored.cursor;
        }
      }
    }

    method TraceNotification(id: Id) returns (r: Result<NotificationTrace>)
      requires Valid()
      ensures r == FastNotification(kernel.Live(), kernel.ledger.events, id)
    {
      hide ValidateNotification, Indexed;
      if id !in kernel.agents.notifications {
        return Err(InvariantViolation);
      }
      var events := OfStream(id);
      return ValidateNotification(kernel.work.items, id, kernel.agents.notifications[id], events.value);
    }

    method TraceNotificationCanonical(id: Id) returns (r: Result<NotificationTrace>)
      requires Valid()
      ensures r == CanonicalNotification(kernel.Live(), kernel.ledger.events, id)
    {
      hide ValidateNotification, Indexed;
      if id !in kernel.agents.notifications {
        return Err(InvariantViolation);
      }
      var events := Events();
      return ValidateNotification(kernel.work.items, id, kernel.agents.notifications[id], events.value);
    }

    method TraceExecution(id: Id) returns (r: Result<ExecutionTrace>)
      requires Valid()
      ensures r == FastExecution(kernel.Live(), kernel.ledger.events, id)
    {
      hide ValidateExecution, Indexed;
      if id !in kernel.agents.executions || kernel.agents.executions[id].workItemId !in kernel.work.items {
        return Err(InvariantViolation);
      }
      var assignments, namings := AssignmentsOf(kernel.agents, id), [];
      if |assignments| == 1 {
        var k :| k in assignments;
        forall j | j in assignments ensures j == k { OneElement(assignments, j, k); }
        var events := OfStream(k);
        namings := Filter(events.value, IsAssignment());
      }
      var own := OfStream(id);
      return ValidateExecution(id, kernel.agents.executions[id], kernel.work.items[kernel.agents.executions[id].workItemId],
                               namings, Filter(own.value, IsReceiptEvent()));
    }

    method TraceExecutionCanonical(id: Id) returns (r: Result<ExecutionTrace>)
      requires Valid()
      ensures r == CanonicalExecution(kernel.Live(), kernel.ledger.events, id)
    {
      hide ValidateExecution, Indexed;
      if id !in kernel.agents.executions || kernel.agents.executions[id].workItemId !in kernel.work.items {
        return Err(InvariantViolation);
      }
      var events := Events();
      return ValidateExecution(id, kernel.agents.executions[id], kernel.work.items[kernel.agents.executions[id].workItemId],
                               Filter(events.value, NamingOf(id)), Filter(events.value, ReceiptOf(id)));
    }
  }
}
