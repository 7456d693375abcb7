/** Event deltas: the three paging loops that summarise a ledger interval for a Pilot, all equal
    to a direct fold over the interval, and the conservation of successive dispatcher deltas. */
module Deltas {
  import opened Models
  import opened Events
  import opened Ledger

  /** A counter of event types is a multiset of type names. */
  datatype EventDelta = EventDelta(after: nat, through: nat, count: nat, types: multiset<string>, streams: set<Id>)

  function TypesOf(events: seq<StoredEvent>): multiset<string> {
    if events == [] then multiset{}
    else TypesOf(events[..|events| - 1]) + multiset{EventType(events[|events| - 1].event.body)}
  }

  function StreamsOf(events: seq<StoredEvent>): set<Id> {
    set d | d in events :: d.event.streamId
  }

  /** Under which names the work events are counted. */
  lemma WorkTypes(b: EventBody)
    ensures b.NodeRegistered? ==> EventType(b) == "node_registered"
    ensures b.WorkItemCreated? ==> EventType(b) == "work_item_created"
    ensures b.WorkDependencyAdded? ==> EventType(b) == "work_dependency_added"
    ensures b.WorkGraphImported? ==> EventType(b) == "current_work_graph_imported"
    ensures b.WorkItemDelegated? ==> EventType(b) == "work_item_delegated"
    ensures b.WorkItemResumePrepared? ==> EventType(b) == "work_item_resume_prepared"
    ensures b.HumanIntervention? ==> EventType(b) == "human_intervention"
    ensures b.FindingRecorded? ==> EventType(b) == "s3_star_finding_recorded"
    ensures b.RiskAccepted? ==> EventType(b) == "s3_star_risk_accepted"
    ensures b.WorkItemCompleted? ==> EventType(b) == "work_item_completed"
  {
  }

  /** The same for executions, names and notifications. */
  lemma AgentTypes(b: EventBody)
    ensures b.ExecutionCreated? ==> EventType(b) == "execution_created"
    ensures b.NotificationDelivered? ==> EventType(b) == "agent_notification_delivered"
    ensures b.NotificationPromoted? ==> EventType(b) == "agent_notification_promoted"
    ensures b.AgentNameAssigned? ==> EventType(b) == "agent_name_assigned"
    ensures b.AgentIdentityRegistered? ==> EventType(b) == "agent_identity_registered"
    ensures b.ExecutionStateChanged? ==> EventType(b) == "execution_state_changed"
    ensures b.ReceiptRecorded? ==> EventType(b) == "pilot_execution_receipt_recorded"
    ensures b.PilotHostDisconnected? ==> EventType(b) == "pilot_host_disconnected"
  {
  }

  /** The same for effects. */
  lemma EffectTypes(b: EventBody)
    ensures b.EffectPlanned? ==> EventType(b) == "effect_planned"
    ensures b.EffectApproved? ==> EventType(b) == "effect_approved"
    ensures b.EffectActivated? ==> EventType(b) == "effect_activated"
    ensures b.EffectResultUnknown? ==> EventType(b) == "effect_result_unknown"
    ensures b.EffectReconciled? ==> EventType(b) == "effect_reconciled"
  {
  }

  /** The same for grants, budgets and routes. */
  lemma GrantTypes(b: EventBody)
    ensures b.CapabilityGranted? ==> EventType(b) == "capability_granted"
    ensures b.BudgetReserved? ==> EventType(b) == "budget_reserved"
    ensures b.ReferenceGranted? ==> EventType(b) == "reference_granted"
    ensures b.RouteRegistered? ==> EventType(b) == "route_snapshot_registered"
    ensures b.RouteSnapshotApproved? ==> EventType(b) == "route_snapshot_approved"
    ensures b.RoutePublished? ==> EventType(b) == "route_snapshot_published"
    ensures b.RouteRetired? ==> EventType(b) == "route_snapshot_retired"
  {
  }

  /** The same for the activation. */
  lemma ActivationTypes(b: EventBody)
    ensures b.ActivationEvent? && b.change.HistoryImportVerified? ==> EventType(b) == "history_import_verified"
    ensures b.ActivationEvent? && b.change.ReorientationStarted? ==> EventType(b) == "reorientation_started"
    ensures b.ActivationEvent? && b.change.ReorientationRetryStarted? ==> EventType(b) == "reorientation_retry_started"
    ensures b.ActivationEvent? && b.change.ReorientationRevisionRetryStarted? ==> EventType(b) == "reorientation_revision_retry_started"
    ensures b.ActivationEvent? && b.change.ReorientationFailed? ==> EventType(b) == "reorientation_failed"
    ensures b.ActivationEvent? && b.change.ReorientationInterrupted? ==> EventType(b) == "reorientation_attempt_interrupted"
    ensures b.ActivationEvent? && b.change.SessionCheckpointed? ==> EventType(b) == "reorientation_session_checkpointed"
    ensures b.ActivationEvent? && b.change.HistoryQueryResolved? ==> EventType(b) == "history_query_resolved"
    ensures b.ActivationEvent? && b.change.SessionIndexPageVerified? ==> EventType(b) == "history_session_index_page_verified"
    ensures b.ActivationEvent? && b.change.UsageRecorded? ==> EventType(b) == "reorientation_pilot_usage_recorded"
    ensures b.ActivationEvent? && b.change.AssessmentAccepted? ==> EventType(b) == "reorientation_assessment_accepted"
    ensures b.ActivationEvent? && b.change.RevisionRequested? ==> EventType(b) == "reorientation_assessment_revision_requested"
    ensures b.ActivationEvent? && b.change.ActivationApproved? ==> EventType(b) == "activation_approved"
  {
  }

  /** The summary of the events with cursors in (after, through]. */
  function DeltaOf(log: seq<StoredEvent>, after: nat, through: nat): EventDelta
    requires after <= through <= |log|
  {
    EventDelta(after, through, through - after, TypesOf(log[after..through]), StreamsOf(log[after..through]))
  }

  function HasType(t: string): StoredEvent -> bool {
    (d: StoredEvent) => EventType(d.event.body) == t
  }

  /** The type counts sum to the number of events, and each count is the number of events of that type. */
  lemma {:induction false} TypeCounts(events: seq<StoredEvent>, t: string)
    ensures |TypesOf(events)| == |events|
    ensures TypesOf(events)[t] == |Filter(events, HasType(t))|
  {
    hide EventType;
    if events != [] {
      TypeCounts(events[..|events| - 1], t);
    }
  }

  lemma TypesSnoc(events: seq<StoredEvent>, d: StoredEvent)
    ensures TypesOf(events + [d]) == TypesOf(events) + multiset{EventType(d.event.body)}
    ensures StreamsOf(events + [d]) == StreamsOf(events) + {d.event.streamId}
  {
    hide EventType;
    assert (events + [d])[..|events|] == events;
  }

  lemma {:induction false} TypesConcat(xs: seq<StoredEvent>, ys: seq<StoredEvent>)
    ensures TypesOf(xs + ys) == TypesOf(xs) + TypesOf(ys)
  {
    hide EventType, TypesOf;
    if ys == [] {
      assert xs + ys == xs;
      assert TypesOf([]) == multiset{} by { NoTypes(); }
    } else {
      var front, last := ys[..|ys| - 1], ys[|ys| - 1];
      TypesConcat(xs, front);
      assert xs + ys == (xs + front) + [last] && ys == front + [last];
      TypesSnoc(xs + front, last);
      TypesSnoc(front, last);
    }
  }

  lemma NoTypes()
    ensures TypesOf([]) == multiset{}
  {
  }

  lemma StreamsConcat(xs: seq<StoredEvent>, ys: seq<StoredEvent>)
    ensures StreamsOf(xs + ys) == StreamsOf(xs) + StreamsOf(ys)
  {
  }

  /** Adjacent deltas add up to the delta of the joint interval. */
  lemma DeltasJoin(log: seq<StoredEvent>, a: nat, b: nat, c: nat)
    requires a <= b <= c <= |log|
    ensures var x, y, z := DeltaOf(log, a, b), DeltaOf(log, b, c), DeltaOf(log, a, c);
            z.count == x.count + y.count && z.types == x.types + y.types && z.streams == x.streams + y.streams
  {
    assert log[a..b] + log[b..c] == log[a..c];
    TypesConcat(log[a..b], log[b..c]);
    StreamsConcat(log[a..b], log[b..c]);
  }

  /** What a delta says of its interval: its ends, how many events, how many of each type, and whose streams. */
  lemma DeltaMeans(log: seq<StoredEvent>, after: nat, through: nat, t: string, id: Id)
    requires after <= through <= |log|
    ensures var d := DeltaOf(log, after, through);
            && d.after == after && d.through == through && d.count == through - after
            && d.types[t] == |Filter(log[after..through], HasType(t))|
            && (id in d.streams <==> exists i :: after <= i < through && log[i].event.streamId == id)
  {
    TypeCounts(log[after..through], t);
    if i :| after <= i < through && log[i].event.streamId == id {
      assert log[after..through][i - after] == log[i];
    }
    if d :| d in log[after..through] && d.event.streamId == id {
      var i :| 0 <= i < through - after && log[after..through][i] == d;
      assert log[after + i] == d;
    }
  }

  /** When the two loops answer: the interface for an interval of the ledger, the reorientation also for a backwards one. */
  lemma AnsweredIntervals(log: seq<StoredEvent>, after: int, through: int)
    ensures InterfaceDelta(log, after, through).Ok? <==> 0 <= after <= through && (after == through || through <= |log|)
    ensures ReorientationDelta(log, after, through).Ok? <==> InterfaceDelta(log, after, through).Ok? || 0 <= through < after
    ensures 0 <= after <= through <= |log| ==> InterfaceDelta(log, after, through) == Ok(DeltaOf(log, after, through))
  {
    if after == through && 0 <= after <= |log| {
      assert log[after..through] == [] && StreamsOf([]) == {};
      NoTypes();
    }
  }

  // ---- the interface and reorientation loops

  /** What the interface's loop answers: it refuses intervals that run backwards or past the ledger. */
  function InterfaceDelta(log: seq<StoredEvent>, after: int, through: int): Result<EventDelta> {
    if through < after || after < 0 then Err(InvariantViolation)
    else if after == through then Ok(EventDelta(after, through, 0, multiset{}, {}))
    else if through > |log| then Err(InvariantViolation)
    else Ok(DeltaOf(log, after, through))
  }

  /** The reorientation loop does not check the direction: a backwards interval is summarised as empty. */
  function ReorientationDelta(log: seq<StoredEvent>, after: int, through: int): Result<EventDelta> {
    if 0 <= through < after then Ok(EventDelta(after, through, 0, multiset{}, {}))
    else InterfaceDelta(log, after, through)
  }

  /** The counts of an answered delta sum to the length of its interval; for the reorientation loop
      exactly when the interval does not run backwards. */
  lemma CountsSumToInterval(log: seq<StoredEvent>, after: int, through: int)
    ensures var r := InterfaceDelta(log, after, through);
            r.Ok? ==> r.value.count == |r.value.types| == through - after
    ensures var r := ReorientationDelta(log, after, through);
            r.Ok? ==> (r.value.count == |r.value.types| == through - after <==> after <= through)
  {
    if 0 <= after <= through <= |log| {
      TypeCounts(log[after..through], "");
    }
  }

  /** The loop's counters after reading up to `cursor`. */
  ghost predicate Tally(log: seq<StoredEvent>, after: int, cursor: int, types: multiset<string>, streams: set<Id>) {
    if cursor == after then types == multiset{} && streams == {}
    else 0 <= after < cursor <= |log| && types == TypesOf(log[after..cursor]) && streams == StreamsOf(log[after..cursor])
  }

  lemma TallyStep(log: seq<StoredEvent>, after: int, cursor: int, types: multiset<string>, streams: set<Id>)
    requires 0 <= after <= cursor < |log| && Tally(log, after, cursor, types, streams)
    ensures Tally(log, after, cursor + 1, types + multiset{EventType(log[cursor].event.body)}, streams + {log[cursor].event.streamId})
  {
    hide EventType;
    assert log[after..cursor + 1] == log[after..cursor] + [log[cursor]];
    TypesSnoc(log[after..cursor], log[cursor]);
    if cursor == after {
      assert log[after..cursor] == [];
    }
  }

  function Least(a: int, b: int): int { if a < b then a else b }

  method InterfaceEventDelta(ledger: InMemoryLedger, after: int, through: int) returns (r: Result<EventDelta>)
    requires ledger.Valid()
    ensures r == InterfaceDelta(ledger.events, after, through)
  {
    hide InMemoryLedger.Valid, Slice, EventType, TypesOf, StreamsOf, Tally;
    if through < after {
      return Err(InvariantViolation);
    }
    ghost var log := ledger.events;
    ledger.CursorsFollow();
    var cursor, types, streams, count := after, multiset{}, {}, 0;
    assert Tally(log, after, cursor, types, streams) by { TallyStart(log, after); }
    while cursor < through
      invariant after <= cursor <= through && count == cursor - after && (cursor > after ==> 0 <= after && cursor <= |log|)
      invariant Tally(log, after, cursor, types, streams)
    {
      var pageStart := cursor;
      var page := ledger.Page(cursor, Least(500, through - cursor));
      if page.Err? {
        return Err(InvariantViolation);
      }
      SliceItems(log, cursor, Least(500, through - cursor));
      if page.value == [] {
        return Err(InvariantViolation);
      }
      for i := 0 to |page.value|
        invariant cursor == pageStart + i <= |log| && cursor <= through && count == cursor - after
        invariant Tally(log, after, cursor, types, streams)
      {
        var stored := page.value[i];
        assert stored == log[cursor] && stored.cursor == cursor + 1;
        if stored.cursor > through {
          break;
        }
        TallyStep(log, after, cursor, types, streams);
        count := count + 1;
        types := types + multiset{EventType(stored.event.body)};
        streams := streams + {stored.event.streamId};
        cursor := stored.cursor;
      }
      if cursor <= pageStart {
        return Err(InvariantViolation);
      }
    }
    if after < 0 {
      return Err(InvariantViolation);
    }
    TallyDone(log, after, through, types, streams);
    return Ok(EventDelta(after, through, count, types, streams));
  }

  lemma TallyStart(log: seq<StoredEvent>, after: int)
    ensures Tally(log, after, after, multiset{}, {})
  {
  }

  lemma TallyDone(log: seq<StoredEvent>, after: nat, through: nat, types: multiset<string>, streams: set<Id>)
    requires after <= through && Tally(log, after, through, types, streams)
    ensures InterfaceDelta(log, after, through) == Ok(EventDelta(after, through, through - after, types, streams))
    ensures through <= |log| ==> DeltaOf(log, after, through) == EventDelta(after, through, through - after, types, streams)
  {
  }

  method ReorientationEventDelta(ledger: InMemoryLedger, after: int, through: int) returns (r: Result<EventDelta>)
    requires ledger.Valid()
    ensures r == ReorientationDelta(ledger.events, after, through)
  {
    hide InMemoryLedger.Valid, Slice, EventType, TypesOf, StreamsOf, Tally;
    ghost var log := ledger.events;
    ledger.CursorsFollow();
    var cursor, types, streams := after, multiset{}, {};
    assert Tally(log, after, cursor, types, streams) by { TallyStart(log, after); }
    while cursor < through
      invariant after <= cursor && (after <= through ==> cursor <= through) && (cursor > after ==> 0 <= after && cursor <= |log|)
      invariant after > through ==> cursor == after
      invariant Tally(log, after, cursor, types, streams)
    {
      var page := ledger.Page(cursor, Least(500, through - cursor));
      if page.Err? {
        return Err(InvariantViolation);
      }
      SliceItems(log, cursor, Least(500, through - cursor));
      if page.value == [] {
        return Err(InvariantViolation);
      }
      ghost var pageStart := cursor;
      for i := 0 to |page.value|
        invariant cursor == pageStart + i <= |log| && cursor <= through
        invariant Tally(log, after, cursor, types, streams)
      {
        var stored := page.value[i];
        assert stored == log[cursor] && stored.cursor == cursor + 1;
        if stored.cursor > through {
          break;
        }
        TallyStep(log, after, cursor, types, streams);
        types := types + multiset{EventType(stored.event.body)};
        streams := streams + {stored.event.streamId};
        cursor := stored.cursor;
      }
    }
    if after < 0 || through < 0 {
      return Err(InvariantViolation);
    }
    if through < after {
      EmptyTally(log, after, types, streams);
    } else {
      TallyDone(log, after, through, types, streams);
      TypesTotal(log, after, through, types, streams);
    }
    return Ok(EventDelta(after, through, |types|, types, streams));
  }

  lemma EmptyTally(log: seq<StoredEvent>, after: int, types: multiset<string>, streams: set<Id>)
    requires Tally(log, after, after, types, streams)
    ensures types == multiset{} && streams == {}
  {
  }

  lemma TypesTotal(log: seq<StoredEvent>, after: nat, through: nat, types: multiset<string>, streams: set<Id>)
    requires after <= through && Tally(log, after, through, types, streams)
    ensures |types| == through - after
  {
    if after < through {
      TypeCounts(log[after..through], "");
    }
  }

  // ---- the dispatcher's deltas

  /** The deltas handed out so far start at `from`, are adjacent, end at `cursor`, and each is the fold of its interval. */
  ghost predicate Covers(taken: seq<EventDelta>, from: nat, cursor: nat, log: seq<StoredEvent>)
    decreases |taken|
  {
    if taken == [] then cursor == from
    else
      var last := taken[|taken| - 1];
      && from <= last.after <= last.through == cursor <= |log|
      && last == DeltaOf(log, last.after, last.through)
      && Covers(taken[..|taken| - 1], from, last.after, log)
  }

  /** Later events do not change what was handed out. */
  lemma {:induction false} CoversGrow(taken: seq<EventDelta>, from: nat, cursor: nat, log: seq<StoredEvent>, more: seq<StoredEvent>)
    requires Covers(taken, from, cursor, log)
    ensures Covers(taken, from, cursor, log + more)
    decreases |taken|
  {
    hide TypesOf, StreamsOf;
    if taken != [] {
      var last := taken[|taken| - 1];
      CoversGrow(taken[..|taken| - 1], from, last.after, log, more);
      assert (log + more)[last.after..last.through] == log[last.after..last.through];
    }
  }

  /** Every event after startup and up to the cursor was handed out in exactly one delta. */
  lemma {:induction false} EachEventOnce(taken: seq<EventDelta>, from: nat, cursor: nat, log: seq<StoredEvent>, c: nat)
    requires Covers(taken, from, cursor, log) && from < c <= cursor
    ensures exists i :: 0 <= i < |taken| && taken[i].after < c <= taken[i].through
    ensures forall i, j :: 0 <= i < j < |taken| ==> !(taken[i].after < c <= taken[i].through && taken[j].after < c <= taken[j].through)
    decreases |taken|
  {
    var front, last := taken[..|taken| - 1], taken[|taken| - 1];
    if c <= last.after {
      EachEventOnce(front, from, last.after, log, c);
      var i :| 0 <= i < |front| && front[i].after < c <= front[i].through;
      assert taken[i] == front[i];
    } else {
      Below(front, from, last.after, log);
      assert last.after < c <= last.through;
    }
  }

  lemma {:induction false} Below(taken: seq<EventDelta>, from: nat, cursor: nat, log: seq<StoredEvent>)
    requires Covers(taken, from, cursor, log)
    ensures forall i :: 0 <= i < |taken| ==> taken[i].through <= cursor
    decreases |taken|
  {
    if taken != [] {
      Below(taken[..|taken| - 1], from, taken[|taken| - 1].after, log);
    }
  }

  /** The event with cursor `c` is in a delta that calls received. */
  predicate ReachesCall(taken: seq<EventDelta>, called: seq<bool>, c: nat)
    requires |called| == |taken|
  {
    exists i :: 0 <= i < |taken| && called[i] && taken[i].after < c <= taken[i].through
  }

  /** A delta is taken for every batch, also for one that starts nothing and drops it. An event reaches a call exactly
      when the one delta that holds it was taken for a batch with calls; otherwise no later delta brings it back. */
  lemma ReachesCallIff(taken: seq<EventDelta>, called: seq<bool>, from: nat, cursor: nat, log: seq<StoredEvent>, c: nat, i: nat)
    requires Covers(taken, from, cursor, log) && |called| == |taken| && i < |taken| && taken[i].after < c <= taken[i].through
    ensures ReachesCall(taken, called, c) <==> called[i]
  {
    hide Covers;
    Within(taken, from, cursor, log, i);
    EachEventOnce(taken, from, cursor, log, c);
  }

  lemma {:induction false} Within(taken: seq<EventDelta>, from: nat, cursor: nat, log: seq<StoredEvent>, i: nat)
    requires Covers(taken, from, cursor, log) && i < |taken|
    ensures from <= taken[i].after <= taken[i].through <= cursor
    decreases |taken|
  {
    if i < |taken| - 1 {
      Within(taken[..|taken| - 1], from, taken[|taken| - 1].after, log, i);
    }
  }

  /** All type counts handed out. */
  function AllTypes(taken: seq<EventDelta>): multiset<string> {
    if taken == [] then multiset{} else AllTypes(taken[..|taken| - 1]) + taken[|taken| - 1].types
  }

  /** Together the deltas count exactly the events since startup. */
  lemma {:induction false} DeltasConserve(taken: seq<EventDelta>, from: nat, cursor: nat, log: seq<StoredEvent>)
    requires Covers(taken, from, cursor, log) && from <= |log|
    ensures from <= cursor <= |log| && AllTypes(taken) == TypesOf(log[from..cursor]) && |AllTypes(taken)| == cursor - from
    decreases |taken|
  {
    if taken != [] {
      var last := taken[|taken| - 1];
      DeltasConserve(taken[..|taken| - 1], from, last.after, log);
      DeltasJoin(log, from, last.after, last.through);
    } else {
      assert log[from..cursor] == [];
    }
    TypeCounts(log[from..cursor], "");
  }

  /** The part of the dispatcher that hands out deltas. */
  class DeltaDispatcher {
    const ledger: InMemoryLedger
    const startupCursor: nat
    var cursor: nat
    /** Every delta taken so far, and whether its batch made calls that received it. */
    ghost var taken: seq<EventDelta>
    ghost var called: seq<bool>

    ghost predicate Valid()
      reads this, ledger
    {
      ledger.Valid() && startupCursor <= |ledger.events| && Covers(taken, startupCursor, cursor, ledger.events) && cursor <= |ledger.events|
      && |called| == |taken|
    }

    constructor (ledger: InMemoryLedger, startupCursor: nat)
      requires ledger.Valid() && startupCursor <= |ledger.events|
      ensures Valid() && this.ledger == ledger && this.startupCursor == startupCursor && cursor == startupCursor && taken == [] && called == []
    {
      this.ledger, this.startupCursor, cursor, taken, called := ledger, startupCursor, startupCursor, [], [];
    }

    /** The next delta reaches from the end of the last one to the end of the ledger. */
    method TakeDelta(ghost forCalls: bool) returns (r: Result<EventDelta>)
      requires Valid()
      modifies `cursor, `taken, `called
      ensures Valid()
      ensures r == Ok(DeltaOf(ledger.events, old(cursor), |ledger.events|))
      ensures cursor == |ledger.events| && taken == old(taken) + [r.value] && called == old(called) + [forCalls]
    {
      hide InMemoryLedger.Valid, Slice, EventType, TypesOf, StreamsOf, Tally, Covers;
      ghost var log, before, marks := ledger.events, taken, called;
      ledger.CursorsFollow();
      var after, at, types, streams := cursor, cursor, multiset{}, {};
      assert Tally(log, after, at, types, streams) by { TallyStart(log, after); }
      while true
        invariant after <= at <= |log| && Tally(log, after, at, types, streams) && cursor == after && taken == before && called == marks
        decreases |log| - at
      {
        var page := ledger.Page(at, 500);
        SliceItems(log, at, 500);
        if page.value == [] {
          break;
        }
        ghost var pageStart := at;
        for i := 0 to |page.value|
          invariant at == pageStart + i <= |log| && Tally(log, after, at, types, streams) && cursor == after && taken == before && called == marks
        {
          var stored := page.value[i];
          assert stored == log[at];
          if stored.cursor != at + 1 {
            return Err(InvariantViolation);
          }
          TallyStep(log, after, at, types, streams);
          types := types + multiset{EventType(stored.event.body)};
          streams := streams + {stored.event.streamId};
          at := stored.cursor;
        }
      }
      TallyDone(log, after, at, types, streams);
      TypesTotal(log, after, at, types, streams);
      CoversSnoc(taken, startupCursor, after, log);
      cursor := at;
      var delta := EventDelta(after, at, |types|, types, streams);
      taken := taken + [delta];
      called := called + [forCalls];
      return Ok(delta);
    }
  }

  lemma CoversSnoc(taken: seq<EventDelta>, from: nat, cursor: nat, log: seq<StoredEvent>)
    requires Covers(taken, from, cursor, log) && from <= |log| && cursor <= |log|
    ensures Covers(taken + [DeltaOf(log, cursor, |log|)], from, |log|, log)
  {
    DeltasConserve(taken, from, cursor, log);
    assert (taken + [DeltaOf(log, cursor, |log|)])[..|taken|] == taken;
  }
}
