/** The Kernel over the LETHE client: an append whose answer is lost may be stored while the live views do not show it.
    When an answered append leaves the live views equal to the replay of the remote ledger, over every run; what a
    caller who retries first can rely on; and which retries can be answered. */
module Remote {
  import opened Models
  import opened Events
  import opened Ledger
  import opened Views
  import opened Commands
  import opened Consistency
  import opened Runs
  import opened Acceptance
  import opened Witness
  import opened Lethe

  /** The live views with the ledger they reflect, the remote ledger, and the command that waits for an answer. */
  datatype Remote = Remote(known: Sys, lake: Lake, pending: Option<Step>)

  /** A command with the fate of its messages, or the arrival of a POST that was given up. */
  datatype RemoteStep =
    | Tries(command: Step, post: PostFate, get: GetFate, conflict: bool)
    | LateArrives(request: Late)

  /** An event body without the clock readings that two of the commands write into it. */
  function Unclocked(b: EventBody): EventBody {
    match b
    case EffectApproved(a) => EffectApproved(a.(approvedAt := 0))
    case ActivationEvent(ActivationApproved(id, _)) => ActivationEvent(ActivationApproved(id, 0))
    case _ => b
  }

  /** The command writes the clock reading of its call into its event. */
  predicate ReadsClock(b: EventBody) {
    b.EffectApproved? || (b.ActivationEvent? && b.change.ActivationApproved?)
  }

  /** The same call at another time: same stream, key, actor and arguments, with new clock readings. */
  predicate SameCall(a: Step, b: Step) {
    a == b.(body := a.body, now := a.now, recordedAt := a.recordedAt, context := a.context) && Unclocked(a.body) == Unclocked(b.body)
  }

  function CallFor(s: Sys, c: Step, post: PostFate, get: GetFate, conflict: bool): LakeStep {
    Call(EventOf(s.view, c), Expected(s.view, c), post, get, conflict)
  }

  function LateFor(s: Sys, c: Step): Late {
    Late(EventOf(s.view, c), Expected(s.view, c))
  }

  /** The call that a try makes, and what becomes of it. */
  function CallOf(x: Remote, s: RemoteStep): LakeStep
    requires s.Tries?
  {
    CallFor(x.known, s.command, s.post, s.get, s.conflict)
  }

  ghost function AnswerTo(x: Remote, s: RemoteStep): AppendOutcome
    requires s.Tries?
  {
    CallAnswer(x.known.view.dataSpaceId, x.lake.log, CallOf(x, s))
  }

  ghost function LakeTo(x: Remote, s: RemoteStep): Lake
    requires s.Tries?
  {
    LakeAfter(x.known.view.dataSpaceId, x.lake, CallOf(x, s))
  }

  /** The command was admitted by the live views and its append was answered. */
  ghost predicate Answered(x: Remote, s: RemoteStep) {
    s.Tries? && Admits(x.known.view, s.command) && !AnswerTo(x, s).Refused?
  }

  /** The views after an answered append: the handler of the caller's own event, with the answered cursor and version. */
  ghost function Mutated(s: Sys, c: Step, r: AppendOutcome): View
    requires !r.Refused?
  {
    match Handle(s.view, StoredEvent(r.cursor, EventOf(s.view, c).(streamVersion := r.streamVersion)))
    case Ok(v) => v
    case Err(_) => s.view
  }

  /** A POST that will never be appended, whenever it arrives: its key or identity is used, or its version is stale. */
  ghost predicate Dead(log: seq<StoredEvent>, r: Late) {
    || r.event.idempotencyKey in KeysOf(log)
    || (exists d :: d in log && d.event.eventId == r.event.eventId)
    || StreamLength(log, r.event.streamId) > r.expected
  }

  /** A refused command is settled when nothing of it is stored nor ever will be. */
  ghost predicate Settled(s: Sys, log: seq<StoredEvent>, c: Step) {
    log == s.log && Dead(log, LateFor(s, c))
  }

  /** A command is checked against the live views; they change only when its append was answered. A refused command
      waits as long as its event is or may be stored all the same. */
  ghost function RemoteAfter(x: Remote, s: RemoteStep): Remote {
    match s
    case Tries(c, _, _, _) =>
      if !Admits(x.known.view, c) then x
      else if AnswerTo(x, s).Refused?
      then Remote(x.known, LakeTo(x, s), if Settled(x.known, LakeTo(x, s).log, c) then None else Some(c))
      else Remote(Sys(Mutated(x.known, c, AnswerTo(x, s)), LakeTo(x, s).log), LakeTo(x, s), None)
    case LateArrives(r) => x.(lake := LakeAfter(x.known.view.dataSpaceId, x.lake, Arrives(r)))
  }

  ghost function RemoteRun(x: Remote, steps: seq<RemoteStep>): Remote {
    if steps == [] then x else RemoteAfter(RemoteRun(x, steps[..|steps| - 1]), steps[|steps| - 1])
  }

  function RemoteStart(dataSpaceId: Id, activationStream: Id): Remote {
    Remote(Start(dataSpaceId, activationStream), Lake([], {}), None)
  }

  /** What the remote ledger replays to. */
  ghost function Replayed(x: Remote): Result<View> {
    Replay(x.known.view.dataSpaceId, x.known.view.activation.streamId, x.lake.log)
  }

  /** The law over the remote ledger: a new process would rebuild exactly the live views. */
  ghost predicate Law(x: Remote) {
    Replayed(x) == Ok(x.known.view)
  }

  // ---- what every run keeps as long as the law held at every answer

  /** Activation events lie on the activation stream. */
  ghost predicate OnActivationStream(e: Event, stream: Id) {
    e.body.ActivationEvent? ==> e.streamId == stream
  }

  ghost predicate Streamed(x: Remote) {
    var stream := x.known.view.activation.streamId;
    && (forall d :: d in x.lake.log ==> OnActivationStream(d.event, stream))
    && (forall r :: r in x.lake.late ==> OnActivationStream(r.event, stream))
  }

  /** The live views are those of a ledger that the remote ledger extends. */
  ghost predicate Known(x: Remote) {
    Reachable(x.known) && x.known.log <= x.lake.log && WellFormed(x.known.view.dataSpaceId, x.lake.log) && Streamed(x)
  }

  lemma TryStreamed(x: Remote, s: RemoteStep)
    requires Streamed(x) && s.Tries? && Admits(x.known.view, s.command)
    ensures Streamed(x.(lake := LakeTo(x, s)))
  {
    hide OutcomeOf, KeyHolder, IdHolder;
    if s.command.body.ActivationEvent? {
      ActivationStream(x.known, s.command);
    }
  }

  /** An unanswered try and a late arrival only extend the remote ledger. */
  lemma TryKeepsKnown(x: Remote, s: RemoteStep)
    requires Known(x) && s.Tries? && Admits(x.known.view, s.command)
    ensures Known(x.(lake := LakeTo(x, s)))
  {
    hide Reachable, WellFormed, Admits, LakeAfter, Streamed;
    TryStreamed(x, s);
    LakeKeeps(x.known.view.dataSpaceId, x.lake, CallOf(x, s));
  }

  lemma ArrivalKeepsKnown(x: Remote, r: Late)
    requires Known(x)
    ensures Known(RemoteAfter(x, LateArrives(r)))
  {
    hide Reachable, WellFormed, OutcomeOf;
    LakeKeeps(x.known.view.dataSpaceId, x.lake, Arrives(r));
  }

  // ---- versions after a replay

  lemma HandleVersions(v: View, stored: StoredEvent)
    requires Handle(v, stored).Ok?
    ensures var w, e := Handle(v, stored).value, stored.event;
            && w.dataSpaceId == v.dataSpaceId && w.activation.streamId == v.activation.streamId
            && w.versions == (if e.body.ActivationEvent? then v.versions else v.versions[e.streamId := e.streamVersion])
            && w.activation.version == (if e.body.ActivationEvent? then e.streamVersion else v.activation.version)
  {
    hide ApplyWork, ApplyAgents, ApplyEffects, ApplyRoutes;
  }

  lemma AppliedVersions(v: View, log: seq<StoredEvent>, d: StoredEvent, id: Id)
    requires Apply(v, d).Ok? && KnownVersion(v, id) == StreamLength(log, id)
    requires OnActivationStream(d.event, v.activation.streamId)
    ensures KnownVersion(Apply(v, d).value, id) == StreamLength(log + [d], id)
  {
    hide Handle, StreamLength;
    HandleVersions(v, d);
    assert StreamLength(log + [d], id) == StreamLength(log, id) + if d.event.streamId == id then 1 else 0 by { OneLonger(log, d, id); }
  }

  lemma OneLonger(log: seq<StoredEvent>, d: StoredEvent, id: Id)
    ensures StreamLength(log + [d], id) == StreamLength(log, id) + if d.event.streamId == id then 1 else 0
  {
    FilterSnoc(log, d, OnStream(id));
  }

  lemma ApplyKeepsIdentities(v: View, d: StoredEvent)
    requires Apply(v, d).Ok?
    ensures Apply(v, d).value.activation.streamId == v.activation.streamId
  {
    hide Handle;
    HandleVersions(v, d);
  }

  /** A list that replays leaves every stream at the version of its length. */
  lemma {:induction false} ReplayVersions(dataSpaceId: Id, stream: Id, log: seq<StoredEvent>)
    requires Replay(dataSpaceId, stream, log).Ok? && forall d :: d in log ==> OnActivationStream(d.event, stream)
    ensures Replay(dataSpaceId, stream, log).value.activation.streamId == stream
    ensures forall id :: KnownVersion(Replay(dataSpaceId, stream, log).value, id) == StreamLength(log, id)
  {
    hide ReplayFrom, Apply, KnownVersion, StreamLength, OnActivationStream;
    if log == [] {
      NothingReplayed(dataSpaceId, stream);
    } else {
      var front, d := log[..|log| - 1], log[|log| - 1];
      assert log == front + [d];
      ReplaySnoc(NewView(dataSpaceId, stream), 0, front, d);
      ReplayVersions(dataSpaceId, stream, front);
      ApplyKeepsIdentities(Replay(dataSpaceId, stream, front).value, d);
      forall id ensures KnownVersion(Replay(dataSpaceId, stream, log).value, id) == StreamLength(log, id) {
        AppliedVersions(Replay(dataSpaceId, stream, front).value, front, d, id);
      }
    }
  }

  lemma NothingReplayed(dataSpaceId: Id, stream: Id)
    ensures Replay(dataSpaceId, stream, []) == Ok(NewView(dataSpaceId, stream))
    ensures forall id :: KnownVersion(NewView(dataSpaceId, stream), id) == StreamLength([], id)
    ensures NewView(dataSpaceId, stream).activation.streamId == stream
  {
  }

  lemma KnownVersions(s: Sys, id: Id)
    requires Reachable(s)
    ensures KnownVersion(s.view, id) == StreamLength(s.log, id)
  {
    hide Reachable, WellFormed, Consistent, Replay, KernelAuthored, ActivationAuthored, StreamLength;
    ReachableInv(s);
    assert StreamInSync(s.view.versions, s.view.activation.streamId, s.view.activation.version, s.log, id);
  }

  lemma {:induction false} StreamGrows(log: seq<StoredEvent>, a: nat, b: nat, id: Id)
    requires a <= b <= |log|
    ensures StreamLength(log[..a], id) <= StreamLength(log[..b], id)
  {
    if a < b {
      assert log[..b] == log[..b - 1] + [log[b - 1]];
      FilterSnoc(log[..b - 1], log[b - 1], OnStream(id));
      StreamGrows(log, a, b - 1, id);
    }
  }

  /** Between two points with an event of the stream the stream gets longer. */
  lemma StreamLonger(log: seq<StoredEvent>, a: nat, i: nat, b: nat)
    requires a <= i < b <= |log|
    ensures StreamLength(log[..a], log[i].event.streamId) < StreamLength(log[..b], log[i].event.streamId)
  {
    var id := log[i].event.streamId;
    StreamGrows(log, a, i, id);
    assert log[..i + 1] == log[..i] + [log[i]];
    FilterSnoc(log[..i], log[i], OnStream(id));
    StreamGrows(log, i + 1, b, id);
  }

  /** As long as only the live views' own ledger is replayed the law holds; any further event breaks it. */
  lemma LawIffKnown(x: Remote)
    requires Known(x)
    ensures Law(x) <==> x.lake.log == x.known.log
  {
    hide Reachable, WellFormed, Replay, StreamLength;
    ReplayedKnown(x.known);
    var i := |x.known.log|;
    assert x.lake.log[..i] == x.known.log && x.lake.log[..|x.lake.log|] == x.lake.log;
    if Law(x) && |x.lake.log| > i {
      ReplayVersions(x.known.view.dataSpaceId, x.known.view.activation.streamId, x.lake.log);
      KnownVersions(x.known, x.lake.log[i].event.streamId);
      StreamLonger(x.lake.log, i, i, |x.lake.log|);
    }
  }

  lemma ReplayedKnown(s: Sys)
    requires Reachable(s)
    ensures Replay(s.view.dataSpaceId, s.view.activation.streamId, s.log) == Ok(s.view)
  {
    hide Reachable, WellFormed, InSync, KernelAuthored, ActivationAuthored, Consistent, Replay;
    ReachableInv(s);
  }

  // ---- one answered try

  /** The try finds nothing that the live views have not seen, or exactly its own event. */
  ghost predicate CaughtUp(x: Remote, s: RemoteStep)
    requires s.Tries?
  {
    || x.lake.log == x.known.log
    || (|x.lake.log| == |x.known.log| + 1 && SameIntent(x.lake.log[|x.known.log|].event, EventOf(x.known.view, s.command)))
  }

  /** No event of the ledger that the Kernel knows has the intent of a new event. */
  lemma NewIntent(s: Sys, c: Step, d: StoredEvent)
    requires Reachable(s) && Admits(s.view, c) && d in s.log
    ensures !SameIntent(d.event, EventOf(s.view, c))
  {
    hide Reachable, AdmitsWork, AdmitsAgents, AdmitsEffects, AdmitsRoutes, AdmitsActivation, Consistent, WellFormed, InSync, Replay;
    ReachableInv(s);
    if c.body.ActivationEvent? {
      assert d.event.body.ActivationEvent? ==> d.event.streamVersion <= s.view.activation.version;
    }
  }

  /** An answered call found an event with its intent in the remote ledger. */
  lemma AnsweredFound(dataSpaceId: Id, x: Lake, s: LakeStep) returns (d: StoredEvent)
    requires s.Call? && !CallAnswer(dataSpaceId, x.log, s).Refused?
    ensures d in LakeAfter(dataSpaceId, x, s).log && SameIntent(d.event, s.event)
    ensures var r := CallAnswer(dataSpaceId, x.log, s); r.cursor == d.cursor && r.streamVersion == d.event.streamVersion
  {
    var next, r := LakeAfter(dataSpaceId, x, s).log, CallAnswer(dataSpaceId, x.log, s);
    if r.Appended? {
      d := StoredEvent(|x.log| + 1, s.event);
      assert next[|x.log|] == d;
    } else {
      d :| d in next && SameIntent(d.event, s.event) && d.cursor == r.cursor && d.event.streamVersion == r.streamVersion;
    }
  }

  /** Where the answered event is: beyond what the live views have seen. */
  lemma AnsweredNew(x: Remote, s: RemoteStep) returns (j: nat)
    requires Known(x) && Answered(x, s)
    ensures Known(x.(lake := LakeTo(x, s)))
    ensures |x.known.log| <= j < |LakeTo(x, s).log| && SameIntent(LakeTo(x, s).log[j].event, EventOf(x.known.view, s.command))
    ensures AnswerTo(x, s).cursor == j + 1 && AnswerTo(x, s).streamVersion == Expected(x.known.view, s.command) + 1
    ensures LakeTo(x, s).log[j].cursor == j + 1
  {
    hide Reachable, Admits, LakeAfter, CallAnswer, Streamed, GaplessStreams, UniqueKeys, UniqueIds;
    TryKeepsKnown(x, s);
    var log := LakeTo(x, s).log;
    var d := AnsweredFound(x.known.view.dataSpaceId, x.lake, CallOf(x, s));
    j :| 0 <= j < |log| && log[j] == d;
    if j < |x.known.log| {
      assert x.known.log[j] == d && d in x.known.log;
      NewIntent(x.known, s.command, d);
    }
  }

  /** A try adds one event beyond what the live views have seen exactly when it was caught up. */
  lemma OneMoreIff(x: Remote, s: RemoteStep)
    requires Known(x) && Answered(x, s)
    ensures |LakeTo(x, s).log| == |x.known.log| + 1 <==> CaughtUp(x, s)
  {
    hide Reachable, Admits, CallAnswer, Streamed, OutcomeOf, GaplessStreams, UniqueKeys;
    var n, e := |x.known.log|, EventOf(x.known.view, s.command);
    var j := AnsweredNew(x, s);
    assert |LakeTo(x, s).log| == |x.lake.log| || LakeTo(x, s).log == x.lake.log + [StoredEvent(|x.lake.log| + 1, e)];
    if |x.lake.log| == n + 1 && LakeTo(x, s).log != x.lake.log {
      assert LakeTo(x, s).log[n] == x.lake.log[n] && LakeTo(x, s).log[n + 1].event == e;
      assert LakeTo(x, s).log[n].event.eventId != e.eventId;
    }
    if |x.lake.log| == n {
      assert x.lake.log == x.known.log;
    }
  }

  lemma AdmitsIgnoresRecording(v: View, c: Step, t: Time)
    requires Admits(v, c)
    ensures Admits(v, c.(recordedAt := t))
  {
    hide NewWorkOk, ImportOk, ResumeOk, GatesSatisfied, DependenciesCompleted, ValidAgentMessage, NameRegistered, AssignmentFor, RetirementOk, Graph.Reaches, Graph.Dependencies, AssessmentAcceptable;
  }

  lemma LastVersion(dataSpaceId: Id, front: seq<StoredEvent>, d: StoredEvent, log: seq<StoredEvent>)
    requires WellFormed(dataSpaceId, log) && log == front + [d]
    ensures d.event.streamVersion == StreamLength(front, d.event.streamId) + 1
  {
    FilterSnoc(front, d, OnStream(d.event.streamId));
    var events := StreamEvents(log, d.event.streamId);
    assert events[|events| - 1] == d && events[|events| - 1].event.streamVersion == |events|;
  }

  /** An event that follows the ledger of a state directly is one that the state accepts. */
  lemma NextIsAccepted(s: Sys, c: Step, log: seq<StoredEvent>)
    requires Reachable(s) && Admits(s.view, c) && WellFormed(s.view.dataSpaceId, log) && log == s.log + [StoredFor(s, c)]
    ensures Accepted(s, c)
  {
    hide Reachable, Admits, StreamEvents;
    var d := StoredFor(s, c);
    LastVersion(s.view.dataSpaceId, s.log, d, log);
    assert log[|s.log|] == d && d in log;
    forall q | q in s.log ensures q.event.idempotencyKey != c.key && q.event.eventId != d.event.eventId {
      var i :| 0 <= i < |s.log| && s.log[i] == q;
      assert log[i] == q;
    }
  }

  lemma AreasIgnoreClocks(v: View, e: Event, t: Time)
    requires !e.body.ActivationEvent?
    ensures HandleArea(v, e.(occurredAt := t)) == HandleArea(v, e)
  {
    hide ReplacementOk, NameRegistered, ValidAgentMessage, ReceiptMatches, PauseHostExecutions, PauseWorkExecutions, RevokeLeases, NodesById, WorkItemsById;
  }

  /** No handler reads the clock reading of an event envelope. */
  lemma HandlersIgnoreClocks(v: View, cursor: nat, e: Event, t: Time)
    ensures Handle(v, StoredEvent(cursor, e.(occurredAt := t))) == Handle(v, StoredEvent(cursor, e))
  {
    hide HandleArea;
    if !e.body.ActivationEvent? {
      AreasIgnoreClocks(v, e, t);
    }
  }

  /** The handler of the caller's own event moves the views as that of the stored one does. */
  lemma MutatedIsExec(s: Sys, c: Step, t: Time, r: AppendOutcome)
    requires Reachable(s) && Accepted(s, c.(recordedAt := t))
    requires !r.Refused? && r.cursor == |s.log| + 1 && r.streamVersion == Expected(s.view, c) + 1
    ensures Sys(Mutated(s, c, r), Exec(s, c.(recordedAt := t)).log) == Exec(s, c.(recordedAt := t))
  {
    hide Reachable, Inv, Accepted, Handle, Moves;
    var try := c.(recordedAt := t);
    ReachableInv(s);
    ExecMoves(s, try);
    assert Handle(s.view, StoredFor(s, try)) == Ok(Exec(s, try).view) by { HandledOk(s, try); }
    HandlersIgnoreClocks(s.view, r.cursor, EventOf(s.view, c), t);
    assert EventOf(s.view, c).(streamVersion := r.streamVersion) == EventOf(s.view, c);
  }

  lemma HandledOk(s: Sys, step: Step)
    requires Moves(s, step, Exec(s, step))
    ensures Handle(s.view, StoredFor(s, step)) == Ok(Exec(s, step).view)
  {
    hide Handle, Exec, Admits;
  }

  /** A caught-up try that was answered moves the live views by its command, as it was recorded at some time. */
  lemma CaughtUpMoves(x: Remote, s: RemoteStep) returns (t: Time)
    requires Known(x) && Answered(x, s) && CaughtUp(x, s)
    ensures var c := s.command.(recordedAt := t);
            && Accepted(x.known, c) && RemoteAfter(x, s).known == Exec(x.known, c)
            && RemoteAfter(x, s).lake.log == Exec(x.known, c).log && RemoteAfter(x, s).pending.None?
  {
    hide Reachable, Admits, LakeAfter, CallAnswer, WellFormed, Streamed, Handle, Mutated, Accepted, CaughtUp;
    var j := AnsweredNew(x, s);
    OneMoreIff(x, s);
    var log := LakeTo(x, s).log;
    assert j == |x.known.log|;
    var d := log[j];
    t := d.event.occurredAt;
    var c := s.command.(recordedAt := t);
    assert EventOf(x.known.view, c) == d.event;
    assert log == x.known.log + [StoredFor(x.known, c)];
    AdmitsIgnoresRecording(x.known.view, s.command, t);
    NextIsAccepted(x.known, c, log);
    MutatedIsExec(x.known, s.command, t, AnswerTo(x, s));
    AppendIsExec(x.known, c);
  }

  /** Offering a command's event to the ledger that the Kernel knows appends it exactly when the command is accepted. */
  lemma AppendIsExec(s: Sys, c: Step)
    requires Reachable(s) && Admits(s.view, c)
    ensures AfterAppend(s.view.dataSpaceId, s.log, EventOf(s.view, c), Expected(s.view, c)) == Exec(s, c).log
    ensures Exec(s, c).log == (if Accepted(s, c) then s.log + [StoredFor(s, c)] else s.log)
  {
    hide Reachable, Admits, Handle, OutcomeOf;
  }

  /** The live views after an answered try are at most one version further, on the stream of the command alone. */
  lemma MutatedVersions(x: Remote, s: RemoteStep, id: Id)
    requires Known(x) && Answered(x, s)
    ensures KnownVersion(RemoteAfter(x, s).known.view, id) <= KnownVersion(x.known.view, id) + if id == s.command.streamId then 1 else 0
    ensures RemoteAfter(x, s).known.view.dataSpaceId == x.known.view.dataSpaceId
    ensures RemoteAfter(x, s).known.view.activation.streamId == x.known.view.activation.streamId
  {
    hide Reachable, Admits, LakeAfter, CallAnswer, WellFormed, Streamed, Handle, SameIntent, Inv;
    var j := AnsweredNew(x, s);
    MutatedVersion(x.known, s.command, AnswerTo(x, s), j, LakeTo(x, s).log[..j], id);
  }

  lemma MutatedVersion(s: Sys, c: Step, r: AppendOutcome, j: nat, log: seq<StoredEvent>, id: Id)
    requires Reachable(s) && Admits(s.view, c) && !r.Refused? && r.cursor == j + 1 && |log| == j && r.streamVersion == Expected(s.view, c) + 1
    ensures KnownVersion(Mutated(s, c, r), id) <= KnownVersion(s.view, id) + if id == c.streamId then 1 else 0
    ensures Mutated(s, c, r).dataSpaceId == s.view.dataSpaceId && Mutated(s, c, r).activation.streamId == s.view.activation.streamId
  {
    hide Reachable, Admits, Handle, WellFormed, InSync, Replay, Consistent, KernelAuthored, ActivationAuthored;
    ReachableInv(s);
    ConsistentStep(Sys(s.view, log), c);
    HandleVersions(s.view, StoredFor(Sys(s.view, log), c));
    if c.body.ActivationEvent? {
      ActivationStream(s, c);
    }
    assert EventOf(s.view, c).(streamVersion := r.streamVersion) == EventOf(s.view, c);
  }

  /** With two or more events beyond what the live views had seen, they miss one after the answer. */
  lemma NotCaughtUpLags(x: Remote, s: RemoteStep)
    requires Known(x) && Answered(x, s) && !CaughtUp(x, s)
    ensures !Law(RemoteAfter(x, s))
  {
    hide Reachable, Admits, LakeAfter, CallAnswer, WellFormed, Handle, SameIntent, Replay, StreamLength, KnownVersion, Mutated;
    var j := AnsweredNew(x, s);
    OneMoreIff(x, s);
    var y, log, n := RemoteAfter(x, s), LakeTo(x, s).log, |x.known.log|;
    var i := if j == n then n + 1 else n;
    var id := log[i].event.streamId;
    var low, high := if i < j then i else j, if i < j then j else i;
    MutatedVersions(x, s, id);
    KnownVersions(x.known, id);
    StreamLonger(log, n, i, |log|);
    StreamLonger(log, n, low, high);
    StreamLonger(log, high, high, |log|);
    assert log[..n] == x.known.log && log[..|log|] == log;
    assert log[j].event.streamId == s.command.streamId by { IntentStream(x.known, s.command, log[j].event); }
    if Law(y) {
      ReplayVersions(x.known.view.dataSpaceId, x.known.view.activation.streamId, log);
    }
  }

  lemma IntentStream(s: Sys, c: Step, e: Event)
    requires SameIntent(e, EventOf(s.view, c))
    ensures e.streamId == c.streamId
  {
  }

  /** For any command, waiting or not: an answered append leaves the live views equal to the replay of the remote ledger
      exactly when, before it, the remote ledger held nothing that they had not seen, or just this command's event. */
  lemma AnswerKeepsLawIff(x: Remote, s: RemoteStep)
    requires Known(x) && Answered(x, s)
    ensures Law(RemoteAfter(x, s)) <==> CaughtUp(x, s)
    ensures CaughtUp(x, s) ==> Known(RemoteAfter(x, s))
  {
    hide Reachable, Admits, LakeAfter, CallAnswer, WellFormed, Streamed, Handle, SameIntent, Replay, Mutated, Accepted, Exec, CaughtUp, AnswerTo, Law;
    if CaughtUp(x, s) {
      var t := CaughtUpMoves(x, s);
      TryKeepsKnown(x, s);
      ReachableStep(x.known, s.command.(recordedAt := t));
      InvKept(x.known, s.command.(recordedAt := t));
      SameStreamed(x, s);
      LawIffKnown(RemoteAfter(x, s));
    } else {
      NotCaughtUpLags(x, s);
    }
  }

  lemma SameStreamed(x: Remote, s: RemoteStep)
    requires Answered(x, s) && Streamed(x.(lake := LakeTo(x, s)))
    requires RemoteAfter(x, s).known.view.activation.streamId == x.known.view.activation.streamId
    ensures Streamed(RemoteAfter(x, s))
  {
    hide Admits, LakeAfter, CallAnswer, Mutated;
  }

  lemma InvKept(s: Sys, c: Step)
    requires Reachable(s)
    ensures Exec(s, c).view.dataSpaceId == s.view.dataSpaceId && Exec(s, c).view.activation.streamId == s.view.activation.streamId
  {
    hide Reachable, Inv, Exec;
    ReachableInv(s);
    InvStep(s, c);
  }

  // ---- all runs

  /** After every answered try the live views were what the remote ledger replayed to. */
  ghost predicate LawAtAnswers(x: Remote, steps: seq<RemoteStep>) {
    steps == []
    || (&& LawAtAnswers(x, steps[..|steps| - 1])
        && var y, s := RemoteRun(x, steps[..|steps| - 1]), steps[|steps| - 1];
           Answered(y, s) ==> Law(RemoteAfter(y, s)))
  }

  /** Every answered try was caught up before: no command was answered while another one's event was stored unseen. */
  ghost predicate NeverOvertakes(x: Remote, steps: seq<RemoteStep>) {
    steps == []
    || (&& NeverOvertakes(x, steps[..|steps| - 1])
        && var y, s := RemoteRun(x, steps[..|steps| - 1]), steps[|steps| - 1];
           Answered(y, s) ==> CaughtUp(y, s))
  }

  lemma StepKeepsKnown(x: Remote, s: RemoteStep)
    requires Known(x) && (Answered(x, s) ==> CaughtUp(x, s))
    ensures Known(RemoteAfter(x, s))
  {
    hide Reachable, Admits, LakeAfter, CallAnswer, WellFormed, Handle, SameIntent, Mutated, CaughtUp, Dead;
    match s
    case LateArrives(r) => ArrivalKeepsKnown(x, r);
    case Tries(c, _, _, _) =>
      if Answered(x, s) {
        AnswerKeepsLawIff(x, s);
      } else if Admits(x.known.view, c) {
        TryKeepsKnown(x, s);
      }
  }

  lemma StartKnown(dataSpaceId: Id, activationStream: Id)
    ensures Known(RemoteStart(dataSpaceId, activationStream))
  {
    hide Reachable;
    ReachableStart(dataSpaceId, activationStream);
  }

  /** Over every run, with whatever commands, losses, delays, errors and late arrivals: the law held after every answer
      exactly when no answered command overtook a stored one that the live views had not seen. As long as that is so, at
      every point the law holds exactly when the remote ledger holds just what the live views reflect. */
  lemma {:induction false} LawAtAnswersIff(dataSpaceId: Id, activationStream: Id, steps: seq<RemoteStep>)
    ensures LawAtAnswers(RemoteStart(dataSpaceId, activationStream), steps) <==> NeverOvertakes(RemoteStart(dataSpaceId, activationStream), steps)
    ensures NeverOvertakes(RemoteStart(dataSpaceId, activationStream), steps) ==>
              var x := RemoteRun(RemoteStart(dataSpaceId, activationStream), steps);
              Known(x) && (Law(x) <==> x.lake.log == x.known.log)
  {
    hide Known, Law, RemoteAfter, Answered, CaughtUp;
    var start := RemoteStart(dataSpaceId, activationStream);
    if steps == [] {
      StartKnown(dataSpaceId, activationStream);
    } else {
      LawAtAnswersIff(dataSpaceId, activationStream, steps[..|steps| - 1]);
      if NeverOvertakes(start, steps[..|steps| - 1]) {
        LastStep(RemoteRun(start, steps[..|steps| - 1]), steps[|steps| - 1]);
      }
    }
    if NeverOvertakes(start, steps) {
      LawIffKnown(RemoteRun(start, steps));
    }
  }

  lemma LastStep(x: Remote, s: RemoteStep)
    requires Known(x)
    ensures Answered(x, s) ==> s.Tries? && (Law(RemoteAfter(x, s)) <==> CaughtUp(x, s))
    ensures (Answered(x, s) ==> s.Tries? && CaughtUp(x, s)) ==> Known(RemoteAfter(x, s))
  {
    hide Known, Law, RemoteAfter, CaughtUp, Admits, AnswerTo;
    if Answered(x, s) {
      AnswerKeepsLawIff(x, s);
    }
    if Answered(x, s) ==> CaughtUp(x, s) {
      StepKeepsKnown(x, s);
    }
  }
}
