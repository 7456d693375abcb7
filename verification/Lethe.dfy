/** The LETHE client: appending to a remote ledger over a channel that loses, delays and
    repeats, with reconciliation by event identity. */
module Lethe {
  import opened Models
  import opened Events
  import opened Ledger

  /** When the remote ledger handles a POST: at once, never, or long after the client gave up. */
  datatype Handling = Now | Never | Later

  /** What becomes of the POST: answered; without response; or answered with a server error, whatever was done with it. */
  datatype PostFate = Delivered | NoResponse(handled: Handling) | ServerError(handled: Handling)

  /** What becomes of the GET: answered or not found, without response, or answered with another error. */
  datatype GetFate = GetAnswered | GetLost | GetFailed

  /** The event up to its clock reading. */
  predicate SameIntent(a: Event, b: Event) {
    a == b.(occurredAt := a.occurredAt)
  }

  /** A POST that is still on its way. */
  datatype Late = Late(event: Event, expected: nat)

  /** The remote event list and the POSTs that may still arrive. */
  datatype Lake = Lake(log: seq<StoredEvent>, late: set<Late>)

  /** One append call of some client with the fate of its messages, or the arrival of a late POST. `conflict` says
      whether a refused envelope is answered with status 409. */
  datatype LakeStep =
    | Call(event: Event, expected: nat, post: PostFate, get: GetFate, conflict: bool)
    | Arrives(request: Late)

  /** Looking the event up by its identity, and comparing intents. */
  ghost function Reconciled(log: seq<StoredEvent>, e: Event, get: GetFate): AppendOutcome {
    if get.GetLost? then Refused(ReconciliationRequired)
    else if get.GetFailed? then Refused(InvariantViolation)
    else match IdHolder(log, e.eventId)
      case None => Refused(ReconciliationRequired)
      case Some(s) => if SameIntent(s.event, e) then Duplicate(s.cursor, s.event.streamVersion) else Refused(InvariantViolation)
  }

  /** The remote list after the call's POST. */
  ghost function AfterPost(dataSpaceId: Id, log: seq<StoredEvent>, e: Event, expected: nat, post: PostFate): seq<StoredEvent> {
    if post.Delivered? || post.handled.Now? then AfterAppend(dataSpaceId, log, e, expected) else log
  }

  /** What the call answers. */
  ghost function CallAnswer(dataSpaceId: Id, log: seq<StoredEvent>, s: LakeStep): AppendOutcome
    requires s.Call?
  {
    if s.event.dataSpaceId != dataSpaceId then Refused(InvariantViolation)
    else if s.post.ServerError? then Refused(InvariantViolation)
    else if s.post.NoResponse? then Reconciled(AfterPost(dataSpaceId, log, s.event, s.expected, s.post), s.event, s.get)
    else match OutcomeOf(dataSpaceId, log, s.event, s.expected)
      case Refused(InvariantViolation) => if s.conflict then Reconciled(log, s.event, s.get) else Refused(InvariantViolation)
      case outcome => outcome
  }

  ghost function LakeAfter(dataSpaceId: Id, x: Lake, s: LakeStep): Lake {
    match s
    case Call(e, expected, post, _, _) =>
      if e.dataSpaceId != dataSpaceId then x
      else x.(log := AfterPost(dataSpaceId, x.log, e, expected, post), late := if !post.Delivered? && post.handled.Later? then x.late + {Late(e, expected)} else x.late)
    case Arrives(r) =>
      if r in x.late then Lake(AfterAppend(dataSpaceId, x.log, r.event, r.expected), x.late - {r}) else x
  }

  /** The client's view of the remote ledger. */
  class LetheClient {
    const dataSpaceId: Id
    const lake: InMemoryLedger
    ghost var late: set<Late>

    constructor (dataSpaceId: Id, lake: InMemoryLedger)
      ensures this.dataSpaceId == dataSpaceId && this.lake == lake && late == {}
    {
      this.dataSpaceId, this.lake, late := dataSpaceId, lake, {};
    }

    /** Posts the event; a lost response and a conflict are reconciled by event identity, any other error is a violation. */
    method Append(e: Event, expected: nat, post: PostFate, get: GetFate, conflict: bool) returns (r: AppendOutcome)
      requires lake.Valid() && lake.dataSpaceId == dataSpaceId
      modifies lake, `late
      ensures lake.Valid()
      ensures r == CallAnswer(dataSpaceId, old(lake.events), Call(e, expected, post, get, conflict))
      ensures Lake(lake.events, late) == LakeAfter(dataSpaceId, old(Lake(lake.events, late)), Call(e, expected, post, get, conflict))
    {
      hide InMemoryLedger.Valid, OutcomeOf;
      if e.dataSpaceId != dataSpaceId {
        return Refused(InvariantViolation);
      }
      var outcome := Refused(InvariantViolation);
      if post.Delivered? || post.handled.Now? {
        outcome := lake.Append(e, expected);
      } else if post.handled.Later? {
        late := late + {Late(e, expected)};
      }
      if post.NoResponse? {
        r := ReconcileEvent(e, get);
        return;
      }
      if post.ServerError? {
        return Refused(InvariantViolation);
      }
      if outcome == Refused(InvariantViolation) && conflict {
        r := ReconcileEvent(e, get);
        return;
      }
      return outcome;
    }

    /** The GET by event identity. */
    method ReconcileEvent(e: Event, get: GetFate) returns (r: AppendOutcome)
      requires lake.Valid()
      ensures r == Reconciled(lake.events, e, get)
    {
      if get.GetLost? {
        return Refused(ReconciliationRequired);
      }
      if get.GetFailed? {
        return Refused(InvariantViolation);
      }
      IdAnswer(lake.events, lake.eventIds, e.eventId);
      if e.eventId !in lake.eventIds {
        return Refused(ReconciliationRequired);
      }
      var stored := lake.eventIds[e.eventId];
      if !SameIntent(stored.event, e) {
        return Refused(InvariantViolation);
      }
      return Duplicate(stored.cursor, stored.event.streamVersion);
    }
  }

  // ---- runs

  ghost function LakeRun(dataSpaceId: Id, x: Lake, steps: seq<LakeStep>): Lake {
    if steps == [] then x else LakeAfter(dataSpaceId, LakeRun(dataSpaceId, x, steps[..|steps| - 1]), steps[|steps| - 1])
  }

  lemma AppendExtends(dataSpaceId: Id, log: seq<StoredEvent>, e: Event, expected: nat)
    requires WellFormed(dataSpaceId, log)
    ensures WellFormed(dataSpaceId, AfterAppend(dataSpaceId, log, e, expected)) && log <= AfterAppend(dataSpaceId, log, e, expected)
  {
    hide WellFormed, OutcomeOf;
    AppendKeepsWellFormed(dataSpaceId, log, e, expected);
  }

  /** Every step leaves the remote list well formed and only ever extends it. */
  lemma LakeKeeps(dataSpaceId: Id, x: Lake, s: LakeStep)
    requires WellFormed(dataSpaceId, x.log)
    ensures WellFormed(dataSpaceId, LakeAfter(dataSpaceId, x, s).log) && x.log <= LakeAfter(dataSpaceId, x, s).log
  {
    hide WellFormed, AfterAppend;
    match s
    case Call(e, expected, _, _, _) => AppendExtends(dataSpaceId, x.log, e, expected);
    case Arrives(r) => AppendExtends(dataSpaceId, x.log, r.event, r.expected);
  }

  lemma {:induction false} LakeRunKeeps(dataSpaceId: Id, x: Lake, steps: seq<LakeStep>)
    requires WellFormed(dataSpaceId, x.log)
    ensures WellFormed(dataSpaceId, LakeRun(dataSpaceId, x, steps).log) && x.log <= LakeRun(dataSpaceId, x, steps).log
  {
    hide WellFormed, LakeAfter;
    if steps != [] {
      LakeRunKeeps(dataSpaceId, x, steps[..|steps| - 1]);
      LakeKeeps(dataSpaceId, LakeRun(dataSpaceId, x, steps[..|steps| - 1]), steps[|steps| - 1]);
    }
  }

  /** The event is stored at this cursor with this stream version and the same intent, and nowhere else. */
  ghost predicate StoredOnce(log: seq<StoredEvent>, e: Event, cursor: nat, version: nat) {
    && 1 <= cursor <= |log| && log[cursor - 1].cursor == cursor
    && SameIntent(log[cursor - 1].event, e) && log[cursor - 1].event.streamVersion == version
    && forall i :: 0 <= i < |log| && log[i].event.eventId == e.eventId ==> i == cursor - 1
  }

  lemma MemberStoredOnce(dataSpaceId: Id, log: seq<StoredEvent>, e: Event, s: StoredEvent)
    requires WellFormed(dataSpaceId, log) && s in log && SameIntent(s.event, e)
    ensures StoredOnce(log, e, s.cursor, s.event.streamVersion)
  {
    hide GaplessStreams, UniqueKeys;
    var i :| 0 <= i < |log| && log[i] == s;
    assert s.event.eventId == e.eventId;
  }

  /** Whenever a call answers with a cursor, the event is stored exactly once there, with the answered version. */
  lemma AnsweredIsStored(dataSpaceId: Id, x: Lake, s: LakeStep)
    requires WellFormed(dataSpaceId, x.log) && s.Call? && !CallAnswer(dataSpaceId, x.log, s).Refused?
    ensures var r := CallAnswer(dataSpaceId, x.log, s);
            StoredOnce(LakeAfter(dataSpaceId, x, s).log, s.event, r.cursor, r.streamVersion)
  {
    var next := LakeAfter(dataSpaceId, x, s).log;
    LakeKeeps(dataSpaceId, x, s);
    hide WellFormed, StoredOnce;
    var r := CallAnswer(dataSpaceId, x.log, s);
    if r.Appended? {
      assert next[|x.log|] == StoredEvent(|x.log| + 1, s.event);
      MemberStoredOnce(dataSpaceId, next, s.event, StoredEvent(|x.log| + 1, s.event));
    } else {
      var d :| d in next && SameIntent(d.event, s.event) && d.cursor == r.cursor && d.event.streamVersion == r.streamVersion;
      MemberStoredOnce(dataSpaceId, next, s.event, d);
    }
  }

  /** Being stored once is permanent. */
  lemma StoredStays(dataSpaceId: Id, log: seq<StoredEvent>, later: seq<StoredEvent>, e: Event, cursor: nat, version: nat)
    requires StoredOnce(log, e, cursor, version) && log <= later && WellFormed(dataSpaceId, later)
    ensures StoredOnce(later, e, cursor, version)
  {
    assert later[cursor - 1] == log[cursor - 1] && later[cursor - 1] in later;
    MemberStoredOnce(dataSpaceId, later, e, later[cursor - 1]);
  }

  /** Over any run of calls and late arrivals after an answered call: the event is stored exactly once, at the
      answered cursor. */
  lemma AppendedExactlyOnce(dataSpaceId: Id, x: Lake, s: LakeStep, steps: seq<LakeStep>)
    requires WellFormed(dataSpaceId, x.log) && s.Call? && !CallAnswer(dataSpaceId, x.log, s).Refused?
    ensures var r := CallAnswer(dataSpaceId, x.log, s);
            StoredOnce(LakeRun(dataSpaceId, LakeAfter(dataSpaceId, x, s), steps).log, s.event, r.cursor, r.streamVersion)
  {
    hide WellFormed, StoredOnce, CallAnswer, LakeAfter, LakeRun;
    AnsweredIsStored(dataSpaceId, x, s);
    LakeKeeps(dataSpaceId, x, s);
    LakeRunKeeps(dataSpaceId, LakeAfter(dataSpaceId, x, s), steps);
    var r := CallAnswer(dataSpaceId, x.log, s);
    StoredStays(dataSpaceId, LakeAfter(dataSpaceId, x, s).log, LakeRun(dataSpaceId, LakeAfter(dataSpaceId, x, s), steps).log,
                s.event, r.cursor, r.streamVersion);
  }

  /** A retry of an answered call, at any later time and with whatever losses, stores nothing, and if it is answered
      it is answered with the same cursor and version. */
  lemma RetryAgrees(dataSpaceId: Id, x: Lake, s: LakeStep, steps: seq<LakeStep>, again: LakeStep)
    requires WellFormed(dataSpaceId, x.log) && s.Call? && !CallAnswer(dataSpaceId, x.log, s).Refused?
    requires again.Call? && SameIntent(again.event, s.event)
    ensures var y := LakeRun(dataSpaceId, LakeAfter(dataSpaceId, x, s), steps);
            && LakeAfter(dataSpaceId, y, again).log == y.log
            && var first, second := CallAnswer(dataSpaceId, x.log, s), CallAnswer(dataSpaceId, y.log, again);
               !second.Refused? ==> second == Duplicate(first.cursor, first.streamVersion)
  {
    hide WellFormed, StoredOnce, CallAnswer, LakeRun, LakeAfter;
    var y := LakeRun(dataSpaceId, LakeAfter(dataSpaceId, x, s), steps);
    var first := CallAnswer(dataSpaceId, x.log, s);
    AppendedExactlyOnce(dataSpaceId, x, s, steps);
    LakeKeeps(dataSpaceId, x, s);
    LakeRunKeeps(dataSpaceId, LakeAfter(dataSpaceId, x, s), steps);
    KnownStoresNothing(dataSpaceId, y, s.event, first.cursor, first.streamVersion, again);
  }

  lemma KnownStoresNothing(dataSpaceId: Id, y: Lake, e: Event, cursor: nat, version: nat, again: LakeStep)
    requires WellFormed(dataSpaceId, y.log) && StoredOnce(y.log, e, cursor, version)
    requires again.Call? && SameIntent(again.event, e)
    ensures LakeAfter(dataSpaceId, y, again).log == y.log
    ensures var r := CallAnswer(dataSpaceId, y.log, again); !r.Refused? ==> r == Duplicate(cursor, version)
  {
    assert y.log[cursor - 1] in y.log && y.log[cursor - 1].event.eventId == again.event.eventId;
    assert !OutcomeOf(dataSpaceId, y.log, again.event, again.expected).Appended?;
    if !CallAnswer(dataSpaceId, y.log, again).Refused? {
      AnsweredIsStored(dataSpaceId, y, again);
    }
  }

  /** Answered or not, lost, delayed or repeated: over any run no event identity is ever stored twice. */
  lemma NeverStoredTwice(dataSpaceId: Id, steps: seq<LakeStep>, i: nat, j: nat)
    requires i < j < |LakeRun(dataSpaceId, Lake([], {}), steps).log|
    ensures LakeRun(dataSpaceId, Lake([], {}), steps).log[i].event.eventId != LakeRun(dataSpaceId, Lake([], {}), steps).log[j].event.eventId
    ensures LakeRun(dataSpaceId, Lake([], {}), steps).log[i].event.idempotencyKey != LakeRun(dataSpaceId, Lake([], {}), steps).log[j].event.idempotencyKey
  {
    hide LakeRun;
    LakeRunKeeps(dataSpaceId, Lake([], {}), steps);
  }

  /** A writer with a stale stream version never appends, whatever happens to its messages. */
  lemma StaleCallNeverAppends(dataSpaceId: Id, x: Lake, s: LakeStep)
    requires s.Call? && s.expected != StreamLength(x.log, s.event.streamId)
    ensures LakeAfter(dataSpaceId, x, s).log == x.log
  {
    hide OutcomeOf;
    StaleWriterNeverAppends(dataSpaceId, x.log, s.event, s.expected);
  }

  /** A definite refusal does not mean that nothing was stored: it is the answer to a newly stored event exactly when
      a server error hid the append, or the response was lost and the lookup failed. */
  lemma RefusedYetStoredIff(dataSpaceId: Id, x: Lake, s: LakeStep)
    requires WellFormed(dataSpaceId, x.log) && s.Call? && s.event.dataSpaceId == dataSpaceId
    requires OutcomeOf(dataSpaceId, x.log, s.event, s.expected).Appended?
    ensures CallAnswer(dataSpaceId, x.log, s) == Refused(InvariantViolation) && LakeAfter(dataSpaceId, x, s).log != x.log
            <==> s.post == ServerError(Now) || (s.post == NoResponse(Now) && s.get.GetFailed?)
  {
    if s.post == NoResponse(Now) && s.get.GetAnswered? {
      var next := LakeAfter(dataSpaceId, x, s).log;
      AppendKeepsWellFormed(dataSpaceId, x.log, s.event, s.expected);
      assert next[|x.log|] in next && next[|x.log|].event == s.event;
      var holder := IdHolder(next, s.event.eventId).value;
      var i :| 0 <= i < |next| && next[i] == holder;
    }
  }

  /** The client looks the event up: after a missing response, or a refusal that is a conflict. */
  ghost predicate LooksUp(dataSpaceId: Id, log: seq<StoredEvent>, s: LakeStep)
    requires s.Call?
  {
    s.event.dataSpaceId == dataSpaceId
    && (s.post.NoResponse? || (s.post.Delivered? && s.conflict && OutcomeOf(dataSpaceId, log, s.event, s.expected) == Refused(InvariantViolation)))
  }

  /** What a call answers, from the remote ledger before and after it. A response decides, unless the client looks the event
      up: then a stored event of the same intent is answered where it is, another one under its identity is a violation,
      and nothing found or no answer needs reconciliation. */
  lemma CallMeans(dataSpaceId: Id, x: Lake, s: LakeStep)
    requires WellFormed(dataSpaceId, x.log) && s.Call?
    ensures var r, after := CallAnswer(dataSpaceId, x.log, s), LakeAfter(dataSpaceId, x, s);
            && (s.event.dataSpaceId != dataSpaceId ==> r == Refused(InvariantViolation) && after == x)
            && (s.event.dataSpaceId == dataSpaceId ==>
                  && (s.post.ServerError? ==> r == Refused(InvariantViolation))
                  && (s.post.Delivered? && !LooksUp(dataSpaceId, x.log, s) ==> r == OutcomeOf(dataSpaceId, x.log, s.event, s.expected))
                  && (LooksUp(dataSpaceId, x.log, s) ==>
                        && (r == Refused(ReconciliationRequired) <==>
                              s.get.GetLost? || (s.get.GetAnswered? && forall i :: 0 <= i < |after.log| ==> after.log[i].event.eventId != s.event.eventId))
                        && (r.Duplicate? <==>
                              s.get.GetAnswered? && exists i :: 0 <= i < |after.log| && after.log[i].event == s.event.(occurredAt := after.log[i].event.occurredAt))
                        && (r.Duplicate? || r == Refused(ReconciliationRequired) || r == Refused(InvariantViolation)))
                  && after.late == x.late + (if s.post == NoResponse(Later) || s.post == ServerError(Later) then {Late(s.event, s.expected)} else {})
                  && after.log == if s.post == Delivered || s.post == NoResponse(Now) || s.post == ServerError(Now)
                                  then AfterAppend(dataSpaceId, x.log, s.event, s.expected) else x.log)
  {
    hide OutcomeOf, AfterAppend;
    LakeKeeps(dataSpaceId, x, s);
    var log := LakeAfter(dataSpaceId, x, s).log;
    if LooksUp(dataSpaceId, x.log, s) {
      LookupLog(dataSpaceId, x, s);
      LookupMeans(dataSpaceId, log, s.event, s.get);
    }
  }

  lemma LookupLog(dataSpaceId: Id, x: Lake, s: LakeStep)
    requires s.Call? && LooksUp(dataSpaceId, x.log, s)
    ensures LakeAfter(dataSpaceId, x, s).log == if s.post.NoResponse? then AfterPost(dataSpaceId, x.log, s.event, s.expected, s.post) else x.log
  {
  }

  lemma LookupMeans(dataSpaceId: Id, log: seq<StoredEvent>, e: Event, get: GetFate)
    requires WellFormed(dataSpaceId, log)
    ensures var r := Reconciled(log, e, get);
            && (r == Refused(ReconciliationRequired) <==>
                  get.GetLost? || (get.GetAnswered? && forall i :: 0 <= i < |log| ==> log[i].event.eventId != e.eventId))
            && (r.Duplicate? <==> get.GetAnswered? && exists i :: 0 <= i < |log| && log[i].event == e.(occurredAt := log[i].event.occurredAt))
            && (r.Duplicate? || r == Refused(ReconciliationRequired) || r == Refused(InvariantViolation))
  {
    hide GaplessStreams, GaplessCursors, UniqueKeys;
    if get.GetAnswered? {
      match IdHolder(log, e.eventId)
      case None =>
        forall i | 0 <= i < |log| ensures log[i].event.eventId != e.eventId { assert log[i] in log; }
      case Some(holder) =>
        var j :| 0 <= j < |log| && log[j] == holder;
        forall i | 0 <= i < |log| && log[i].event.eventId == e.eventId ensures i == j { }
    }
  }

  /** A late POST is appended or not when it arrives, and is then gone. */
  lemma ArrivalMeans(dataSpaceId: Id, x: Lake, r: Late)
    ensures LakeAfter(dataSpaceId, x, Arrives(r)) ==
              if r in x.late then Lake(AfterAppend(dataSpaceId, x.log, r.event, r.expected), x.late - {r}) else x
  {
  }
}
