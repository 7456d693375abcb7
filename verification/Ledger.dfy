/** The operational ledger: an append-only event list with optimistic per-stream versions,
    content-aware idempotency keys, and cursor and stream paging. */
module Ledger {
  import opened Models
  import opened Events

  datatype AppendOutcome =
    | Appended(cursor: nat, streamVersion: nat)
    | Duplicate(cursor: nat, streamVersion: nat)
    | Refused(fault: Fault)

  /** Some stored event with this idempotency key, if there is one. */
  ghost function KeyHolder(log: seq<StoredEvent>, key: string): (r: Option<StoredEvent>)
    ensures r.Some? ==> r.value in log && r.value.event.idempotencyKey == key
    ensures r.None? ==> forall s :: s in log ==> s.event.idempotencyKey != key
  {
    if s :| s in log && s.event.idempotencyKey == key then Some(s) else None
  }

  /** Some stored event with this event id, if there is one. */
  ghost function IdHolder(log: seq<StoredEvent>, id: EventId): (r: Option<StoredEvent>)
    ensures r.Some? ==> r.value in log && r.value.event.eventId == id
    ensures r.None? ==> forall s :: s in log ==> s.event.eventId != id
  {
    if s :| s in log && s.event.eventId == id then Some(s) else None
  }

  /** What an append answers, decided by scanning the whole list. */
  ghost function OutcomeOf(dataSpaceId: Id, log: seq<StoredEvent>, e: Event, expected: nat): AppendOutcome {
    if e.dataSpaceId != dataSpaceId then Refused(InvariantViolation)
    else match KeyHolder(log, e.idempotencyKey)
      case Some(s) =>
        if s.event == e then Duplicate(s.cursor, s.event.streamVersion) else Refused(InvariantViolation)
      case None =>
        match IdHolder(log, e.eventId)
        case Some(s) =>
          if s.event == e then Duplicate(s.cursor, s.event.streamVersion) else Refused(InvariantViolation)
        case None =>
          if StreamLength(log, e.streamId) != expected then Refused(StreamConflict)
          else if e.streamVersion != expected + 1 then Refused(InvariantViolation)
          else Appended(|log| + 1, e.streamVersion)
  }

  /** The list after an append. */
  ghost function AfterAppend(dataSpaceId: Id, log: seq<StoredEvent>, e: Event, expected: nat): seq<StoredEvent> {
    if OutcomeOf(dataSpaceId, log, e, expected).Appended? then log + [StoredEvent(|log| + 1, e)] else log
  }

  ghost predicate UniqueKeys(log: seq<StoredEvent>) {
    forall i, j :: 0 <= i < j < |log| ==> log[i].event.idempotencyKey != log[j].event.idempotencyKey
  }

  ghost predicate UniqueIds(log: seq<StoredEvent>) {
    forall i, j :: 0 <= i < j < |log| ==> log[i].event.eventId != log[j].event.eventId
  }

  ghost predicate GaplessCursors(log: seq<StoredEvent>) {
    forall i :: 0 <= i < |log| ==> log[i].cursor == i + 1
  }

  /** Within each stream the versions are 1, 2, 3, ... */
  ghost predicate GaplessStreams(log: seq<StoredEvent>) {
    forall id, k :: 0 <= k < |StreamEvents(log, id)| ==> StreamEvents(log, id)[k].event.streamVersion == k + 1
  }

  ghost predicate WellFormed(dataSpaceId: Id, log: seq<StoredEvent>) {
    && GaplessCursors(log) && GaplessStreams(log) && UniqueKeys(log) && UniqueIds(log)
    && forall s :: s in log ==> s.event.dataSpaceId == dataSpaceId
  }

  /** The event's key or identity is stored already. */
  ghost predicate Taken(log: seq<StoredEvent>, e: Event) {
    exists i :: 0 <= i < |log| && (log[i].event.idempotencyKey == e.idempotencyKey || log[i].event.eventId == e.eventId)
  }

  /** What an append answers and does: a free event with the right version becomes the last one; a wrong version of a free
      one is a conflict; the stored event itself is answered where it is; everything else is a violation. */
  ghost predicate AnswersAs(r: AppendOutcome, dataSpaceId: Id, before: seq<StoredEvent>, after: seq<StoredEvent>, e: Event, expected: nat) {
    && (r.Appended? <==> e.dataSpaceId == dataSpaceId && !Taken(before, e) && expected == StreamLength(before, e.streamId)
                         && e.streamVersion == expected + 1)
    && (r == Refused(StreamConflict) <==> e.dataSpaceId == dataSpaceId && !Taken(before, e) && expected != StreamLength(before, e.streamId))
    && (r.Duplicate? <==> e.dataSpaceId == dataSpaceId && exists i :: 0 <= i < |before| && before[i].event == e)
    && (r.Duplicate? ==> exists i :: 0 <= i < |before| && before[i].event == e && r.cursor == before[i].cursor && r.streamVersion == e.streamVersion)
    && (r.Refused? ==> r.fault != ReconciliationRequired)
    && (r.Appended? ==> r.cursor == |before| + 1 && r.streamVersion == e.streamVersion && after == before + [StoredEvent(|before| + 1, e)])
    && (!r.Appended? ==> after == before)
  }

  lemma AnswerMeans(dataSpaceId: Id, log: seq<StoredEvent>, e: Event, expected: nat)
    requires WellFormed(dataSpaceId, log)
    ensures AnswersAs(OutcomeOf(dataSpaceId, log, e, expected), dataSpaceId, log, AfterAppend(dataSpaceId, log, e, expected), e, expected)
  {
    hide GaplessStreams, GaplessCursors, StreamLength;
    assert Taken(log, e) <==> exists s :: s in log && (s.event.idempotencyKey == e.idempotencyKey || s.event.eventId == e.eventId);
    if i :| 0 <= i < |log| && log[i].event == e {
      var holder := KeyHolder(log, e.idempotencyKey).value;
      var j :| 0 <= j < |log| && log[j] == holder;
      assert i == j;
    }
    if OutcomeOf(dataSpaceId, log, e, expected).Duplicate? {
      var d :| d in log && d.event == e && d.cursor == OutcomeOf(dataSpaceId, log, e, expected).cursor;
      var i :| 0 <= i < |log| && log[i] == d;
    }
  }

  /** Every answer to an append leaves a well-formed list well formed. */
  lemma AppendKeepsWellFormed(dataSpaceId: Id, log: seq<StoredEvent>, e: Event, expected: nat)
    requires WellFormed(dataSpaceId, log)
    ensures WellFormed(dataSpaceId, AfterAppend(dataSpaceId, log, e, expected))
  {
    if OutcomeOf(dataSpaceId, log, e, expected).Appended? {
      var stored := StoredEvent(|log| + 1, e);
      var next := log + [stored];
      forall i, j | 0 <= i < j < |next|
        ensures next[i].event.idempotencyKey != next[j].event.idempotencyKey && next[i].event.eventId != next[j].event.eventId
      {
        assert next[i] in log;
      }
      forall id, k | 0 <= k < |StreamEvents(next, id)|
        ensures StreamEvents(next, id)[k].event.streamVersion == k + 1
      {
        FilterSnoc(log, stored, OnStream(id));
        if k < |StreamEvents(log, id)| {
          assert StreamEvents(log, id)[k].event.streamVersion == k + 1;
        }
      }
    }
  }

  /** A writer whose expected version is not the stream's length never adds an event. */
  lemma StaleWriterNeverAppends(dataSpaceId: Id, log: seq<StoredEvent>, e: Event, expected: nat)
    requires expected != StreamLength(log, e.streamId)
    ensures AfterAppend(dataSpaceId, log, e, expected) == log
  {
  }

  /** An event that is not stored yet is not answered as a duplicate. */
  lemma NotDuplicate(dataSpaceId: Id, log: seq<StoredEvent>, e: Event, expected: nat)
    requires forall s :: s in log ==> s.event != e
    ensures !OutcomeOf(dataSpaceId, log, e, expected).Duplicate?
    ensures OutcomeOf(dataSpaceId, log, e, expected).Appended? ==>
              OutcomeOf(dataSpaceId, log, e, expected) == Appended(|log| + 1, e.streamVersion)
  {
  }

  /** Offering the same event again, with any expected version, finds it and adds nothing. */
  lemma RetryIsDuplicate(dataSpaceId: Id, log: seq<StoredEvent>, e: Event, expected: nat, again: nat)
    requires WellFormed(dataSpaceId, log)
    requires OutcomeOf(dataSpaceId, log, e, expected).Appended?
    ensures var next := AfterAppend(dataSpaceId, log, e, expected);
            OutcomeOf(dataSpaceId, next, e, again) == Duplicate(|next|, e.streamVersion)
            && AfterAppend(dataSpaceId, next, e, again) == next
  {
    var next := AfterAppend(dataSpaceId, log, e, expected);
    AppendKeepsWellFormed(dataSpaceId, log, e, expected);
    assert next[|log|] in next;
    var holder := KeyHolder(next, e.idempotencyKey).value;
    var i :| 0 <= i < |next| && next[i] == holder;
    assert i == |log|;
  }

  /** The events of a stream appear in increasing cursor order. */
  lemma {:induction false} StreamCursorsIncrease(log: seq<StoredEvent>, id: Id)
    requires GaplessCursors(log)
    ensures forall k :: 0 <= k < |StreamEvents(log, id)| ==> 1 <= StreamEvents(log, id)[k].cursor <= |log|
    ensures forall j, k :: 0 <= j < k < |StreamEvents(log, id)| ==> StreamEvents(log, id)[j].cursor < StreamEvents(log, id)[k].cursor
  {
    if log != [] {
      var front, last := log[..|log| - 1], log[|log| - 1];
      StreamCursorsIncrease(front, id);
      assert log == front + [last];
      FilterSnoc(front, last, OnStream(id));
      var before, after := StreamEvents(front, id), StreamEvents(log, id);
      assert after == if last.event.streamId == id then before + [last] else before;
      forall k | 0 <= k < |after| ensures 1 <= after[k].cursor <= |log| && (k < |before| ==> after[k] == before[k]) {
      }
    }
  }

  ghost predicate StreamsAgree(log: seq<StoredEvent>, streams: map<Id, seq<StoredEvent>>) {
    forall id :: (if id in streams then streams[id] else []) == StreamEvents(log, id)
  }

  ghost predicate KeysAgree(log: seq<StoredEvent>, index: map<string, StoredEvent>) {
    && (forall s :: s in log ==> s.event.idempotencyKey in index && index[s.event.idempotencyKey] == s)
    && (forall k :: k in index ==> index[k] in log && index[k].event.idempotencyKey == k)
  }

  ghost predicate IdsAgree(log: seq<StoredEvent>, index: map<EventId, StoredEvent>) {
    && (forall s :: s in log ==> s.event.eventId in index && index[s.event.eventId] == s)
    && (forall k :: k in index ==> index[k] in log && index[k].event.eventId == k)
  }

  /** The list is well formed and each index is a view of it. */
  ghost predicate Indexed(dataSpaceId: Id, log: seq<StoredEvent>,
      streams: map<Id, seq<StoredEvent>>, keys: map<string, StoredEvent>, ids: map<EventId, StoredEvent>)
  {
    WellFormed(dataSpaceId, log) && StreamsAgree(log, streams) && KeysAgree(log, keys) && IdsAgree(log, ids)
  }

  /** The indexes do not stand in the way of storing `s` next. */
  predicate Storable(dataSpaceId: Id, log: seq<StoredEvent>,
      streams: map<Id, seq<StoredEvent>>, keys: map<string, StoredEvent>, ids: map<EventId, StoredEvent>, s: StoredEvent)
  {
    && s.cursor == |log| + 1 && s.event.dataSpaceId == dataSpaceId
    && s.event.idempotencyKey !in keys && s.event.eventId !in ids
    && s.event.streamVersion == (if s.event.streamId in streams then |streams[s.event.streamId]| else 0) + 1
  }

  lemma IndexesExtend(dataSpaceId: Id, log: seq<StoredEvent>,
      streams: map<Id, seq<StoredEvent>>, keys: map<string, StoredEvent>, ids: map<EventId, StoredEvent>, s: StoredEvent)
    requires Indexed(dataSpaceId, log, streams, keys, ids) && Storable(dataSpaceId, log, streams, keys, ids, s)
    ensures Indexed(dataSpaceId, log + [s], streams[s.event.streamId := StreamEvents(log, s.event.streamId) + [s]],
                    keys[s.event.idempotencyKey := s], ids[s.event.eventId := s])
  {
    KeyAnswer(log, keys, s.event.idempotencyKey);
    IdAnswer(log, ids, s.event.eventId);
    AppendKeepsWellFormed(dataSpaceId, log, s.event, StreamLength(log, s.event.streamId));
    StreamsExtend(log, streams, s);
    KeysExtend(log, keys, s);
    IdsExtend(log, ids, s);
  }

  lemma KeyAnswer(log: seq<StoredEvent>, index: map<string, StoredEvent>, key: string)
    requires KeysAgree(log, index)
    ensures KeyHolder(log, key) == if key in index then Some(index[key]) else None
  {
  }

  lemma IdAnswer(log: seq<StoredEvent>, index: map<EventId, StoredEvent>, id: EventId)
    requires IdsAgree(log, index)
    ensures IdHolder(log, id) == if id in index then Some(index[id]) else None
  {
  }

  lemma StreamsExtend(log: seq<StoredEvent>, streams: map<Id, seq<StoredEvent>>, s: StoredEvent)
    requires StreamsAgree(log, streams)
    ensures var id := s.event.streamId;
            StreamsAgree(log + [s], streams[id := StreamEvents(log, id) + [s]])
  {
    forall id { FilterSnoc(log, s, OnStream(id)); }
  }

  lemma KeysExtend(log: seq<StoredEvent>, index: map<string, StoredEvent>, s: StoredEvent)
    requires KeysAgree(log, index) && s.event.idempotencyKey !in index
    ensures KeysAgree(log + [s], index[s.event.idempotencyKey := s])
  {
  }

  lemma IdsExtend(log: seq<StoredEvent>, index: map<EventId, StoredEvent>, s: StoredEvent)
    requires IdsAgree(log, index) && s.event.eventId !in index
    ensures IdsAgree(log + [s], index[s.event.eventId := s])
  {
  }

  /** List slicing that clamps at the end, as both paging calls use it. */
  function Slice<T>(xs: seq<T>, after: nat, limit: nat): seq<T> {
    if after >= |xs| then [] else if after + limit >= |xs| then xs[after..] else xs[after..after + limit]
  }

  /** A page holds the next elements, and is empty only at the end or beyond. */
  lemma SliceItems<T>(xs: seq<T>, after: nat, limit: nat)
    requires limit > 0
    ensures Slice(xs, after, limit) == [] <==> after >= |xs|
    ensures after <= |xs| ==> after + |Slice(xs, after, limit)| <= |xs|
    ensures |Slice(xs, after, limit)| == if after + limit <= |xs| then limit else if after <= |xs| then |xs| - after else 0
    ensures forall i :: 0 <= i < |Slice(xs, after, limit)| ==> Slice(xs, after, limit)[i] == xs[after + i]
  {
  }

  /** `xs` are the first `n` elements of `all`. */
  ghost predicate IsTake<T>(xs: seq<T>, all: seq<T>, n: nat) {
    n <= |all| && xs == all[..n]
  }

  lemma TakeNext<T>(xs: seq<T>, all: seq<T>, n: nat)
    requires IsTake(xs, all, n) && n < |all|
    ensures IsTake(xs + [all[n]], all, n + 1)
  {
  }

  lemma TakeNone<T>(all: seq<T>)
    ensures IsTake([], all, 0)
  {
  }

  lemma TakeAll<T>(xs: seq<T>, all: seq<T>)
    requires IsTake(xs, all, |all|)
    ensures xs == all
  {
  }

  /** The in-memory ledger: the list plus the three indexes that answer an append without scanning. */
  class InMemoryLedger {
    const dataSpaceId: Id
    var events: seq<StoredEvent>
    var streams: map<Id, seq<StoredEvent>>
    var idempotency: map<string, StoredEvent>
    var eventIds: map<EventId, StoredEvent>

    /** Each index is a view of the list. */
    ghost predicate Valid()
      reads this
    {
      Indexed(dataSpaceId, events, streams, idempotency, eventIds)
    }

    constructor (dataSpaceId: Id)
      ensures Valid() && events == [] && this.dataSpaceId == dataSpaceId
    {
      this.dataSpaceId := dataSpaceId;
      events, streams, idempotency, eventIds := [], map[], map[], map[];
    }

    /** Answers from the indexes exactly what a scan of the list would answer. */
    method Append(e: Event, expected: nat) returns (r: AppendOutcome)
      requires Valid()
      modifies this
      ensures Valid()
      ensures r == OutcomeOf(dataSpaceId, old(events), e, expected)
      ensures events == AfterAppend(dataSpaceId, old(events), e, expected)
      ensures AnswersAs(r, dataSpaceId, old(events), events, e, expected)
    {
      AnswerMeans(dataSpaceId, events, e, expected);
      if e.dataSpaceId != dataSpaceId {
        return Refused(InvariantViolation);
      }
      KeyAnswer(events, idempotency, e.idempotencyKey);
      IdAnswer(events, eventIds, e.eventId);
      if e.idempotencyKey in idempotency {
        var s := idempotency[e.idempotencyKey];
        return if s.event == e then Duplicate(s.cursor, s.event.streamVersion) else Refused(InvariantViolation);
      }
      if e.eventId in eventIds {
        var s := eventIds[e.eventId];
        return if s.event == e then Duplicate(s.cursor, s.event.streamVersion) else Refused(InvariantViolation);
      }
      var stream := if e.streamId in streams then streams[e.streamId] else [];
      if |stream| != expected {
        return Refused(StreamConflict);
      }
      if e.streamVersion != |stream| + 1 {
        return Refused(InvariantViolation);
      }
      var stored := StoredEvent(|events| + 1, e);
      Store(stored, stream);
      return Appended(stored.cursor, e.streamVersion);
    }

    /** Adds the event to the list and to the three indexes. */
    method Store(s: StoredEvent, stream: seq<StoredEvent>)
      requires Valid() && Storable(dataSpaceId, events, streams, idempotency, eventIds, s)
      requires stream == StreamEvents(events, s.event.streamId)
      modifies this
      ensures Valid() && events == old(events) + [s]
    {
      IndexesExtend(dataSpaceId, events, streams, idempotency, eventIds, s);
      streams := streams[s.event.streamId := stream + [s]];
      idempotency := idempotency[s.event.idempotencyKey := s];
      eventIds := eventIds[s.event.eventId := s];
      events := events + [s];
    }

    lemma CursorsFollow()
      requires Valid()
      ensures GaplessCursors(events)
    {
    }

    method Page(afterCursor: int, limit: int) returns (r: Result<seq<StoredEvent>>)
      ensures afterCursor < 0 || limit <= 0 ==> r == Err(InvariantViolation)
      ensures afterCursor >= 0 && limit > 0 ==> r == Ok(Slice(events, afterCursor, limit))
    {
      if afterCursor < 0 || limit <= 0 {
        return Err(InvariantViolation);
      }
      return Ok(Slice(events, afterCursor, limit));
    }

    method Stream(streamId: Id, afterVersion: int, limit: int) returns (r: Result<seq<StoredEvent>>)
      requires Valid()
      ensures afterVersion < 0 || limit <= 0 ==> r == Err(InvariantViolation)
      ensures afterVersion >= 0 && limit > 0 ==> r == Ok(Slice(StreamEvents(events, streamId), afterVersion, limit))
    {
      if afterVersion < 0 || limit <= 0 {
        return Err(InvariantViolation);
      }
      var stream := if streamId in streams then streams[streamId] else [];
      return Ok(Slice(stream, afterVersion, limit));
    }
  }
}
