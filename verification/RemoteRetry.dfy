/** Retrying an unanswered command over the remote ledger: a caller that retries before it does anything else never
    breaks the law; a retry restores it exactly when its event is the stored one; and two commands write the clock
    reading of the call into their event, so that their retries are never answered. */
module RemoteRetry {
  import opened Models
  import opened Events
  import opened Ledger
  import opened Views
  import opened Commands
  import opened Consistency
  import opened Runs
  import opened Acceptance
  import opened Witness
  import opened Lethe
  import opened Remote

  /** After an unanswered command only its retries are tried. */
  predicate CanTry(x: Remote, s: RemoteStep) {
    s.Tries? && x.pending.Some? ==> SameCall(s.command, x.pending.value)
  }

  ghost predicate CanRun(x: Remote, steps: seq<RemoteStep>) {
    steps == [] || (CanRun(x, steps[..|steps| - 1]) && CanTry(RemoteRun(x, steps[..|steps| - 1]), steps[|steps| - 1]))
  }

  // ---- what such a caller keeps

  /** The waiting command's event is stored, as some try of it was sent. */
  ghost predicate StoredBy(x: Remote, c: Step) {
    x.pending.Some? && SameCall(c, x.pending.value) && Accepted(x.known, c) && x.lake.log == Exec(x.known, c).log
  }

  /** The POST was sent by some try of the waiting command. */
  ghost predicate SentBy(x: Remote, r: Late, c: Step) {
    x.pending.Some? && SameCall(c, x.pending.value) && Admits(x.known.view, c) && r == LateFor(x.known, c)
  }

  /** The remote ledger is what the live views reflect, or one event of the waiting command ahead; a POST on its way is
      one of that command, or will never be appended. */
  ghost predicate RemoteInv(x: Remote) {
    && Known(x)
    && (x.lake.log == x.known.log || exists c :: StoredBy(x, c))
    && (forall r :: r in x.lake.late ==> Dead(x.lake.log, r) || exists c :: SentBy(x, r, c))
  }

  lemma DeadStays(dataSpaceId: Id, log: seq<StoredEvent>, r: Late, other: Event, expected: nat)
    requires Dead(log, r)
    ensures Dead(AfterAppend(dataSpaceId, log, other, expected), r)
  {
    hide OutcomeOf;
    if OutcomeOf(dataSpaceId, log, other, expected).Appended? {
      var d := StoredEvent(|log| + 1, other);
      KeysGrow(log, d);
      FilterSnoc(log, d, OnStream(r.event.streamId));
    }
  }

  lemma DeadNotAppended(dataSpaceId: Id, log: seq<StoredEvent>, r: Late)
    requires Dead(log, r)
    ensures AfterAppend(dataSpaceId, log, r.event, r.expected) == log
  {
    if r.event.idempotencyKey in KeysOf(log) {
      var d :| d in log && d.event.idempotencyKey == r.event.idempotencyKey;
      assert KeyHolder(log, r.event.idempotencyKey).Some?;
    }
  }

  /** Once a try is stored, no try of the same call is appended any more. */
  lemma StoredIsDead(s: Sys, c: Step, again: Step)
    requires Accepted(s, c) && again.key == c.key
    ensures Dead(Exec(s, c).log, LateFor(s, again))
  {
    hide Admits, Handle, OutcomeOf;
    KeysGrow(s.log, StoredFor(s, c));
  }

  /** A command that is refused over the ledger that the Kernel knows is refused for good. */
  lemma RefusedIsDead(s: Sys, c: Step)
    requires Reachable(s) && Admits(s.view, c) && !Accepted(s, c)
    ensures Dead(s.log, LateFor(s, c))
  {
    hide Reachable, Admits, KeysOf, StreamLength, WellFormed, Consistent, Replay, KernelAuthored, ActivationAuthored;
    ReachableInv(s);
    KeyUsedIff(s.log, c.key);
    if !KeyUsed(s.log, c.key) {
      AcceptedIff(s, c);
      assert StreamInSync(s.view.versions, s.view.activation.streamId, s.view.activation.version, s.log, c.streamId);
      if c.body.ActivationEvent? {
        ActivationStream(s, c);
      }
    }
  }

  /** The remote ledger after a try: what the Kernel knows, or one try of the call ahead. */
  ghost predicate Ahead(s: Sys, log: seq<StoredEvent>, c: Step, try: Step) {
    SameCall(try, c) && Accepted(s, try) && log == Exec(s, try).log
  }

  lemma LogAfterTry(x: Remote, s: RemoteStep)
    requires RemoteInv(x) && s.Tries? && CanTry(x, s) && Admits(x.known.view, s.command)
    ensures LakeTo(x, s).log == x.known.log || exists c :: Ahead(x.known, LakeTo(x, s).log, s.command, c)
    ensures x.lake.log != x.known.log ==> LakeTo(x, s).log == x.lake.log
  {
    hide Reachable, Admits, Exec, Accepted, AfterAppend, Dead, WellFormed, Streamed;
    AppendIsExec(x.known, s.command);
    if x.lake.log == x.known.log {
      if Accepted(x.known, s.command) {
        assert Ahead(x.known, Exec(x.known, s.command).log, s.command, s.command);
      }
    } else {
      var c :| StoredBy(x, c);
      StoredIsDead(x.known, c, s.command);
      DeadNotAppended(x.known.view.dataSpaceId, x.lake.log, LateFor(x.known, s.command));
      assert Ahead(x.known, x.lake.log, s.command, c);
    }
  }

  /** A retry that is answered found its own event. */
  lemma RetryCaughtUp(x: Remote, s: RemoteStep)
    requires RemoteInv(x) && CanTry(x, s) && Answered(x, s)
    ensures CaughtUp(x, s)
  {
    hide Reachable, Admits, LakeAfter, CallAnswer, WellFormed, Streamed, SameIntent, Accepted, Handle;
    if x.lake.log != x.known.log {
      LogAfterTry(x, s);
      AheadIsLonger(x);
      var j := AnsweredNew(x, s);
    }
  }

  lemma AheadIsLonger(x: Remote)
    requires RemoteInv(x)
    ensures x.lake.log == x.known.log || |x.lake.log| == |x.known.log| + 1
  {
    hide Known, Admits, Handle;
  }

  /** Which POSTs are on their way after a try. */
  lemma LateAfterTry(x: Remote, s: RemoteStep, r: Late)
    requires s.Tries? && Admits(x.known.view, s.command) && r in LakeTo(x, s).late
    ensures r in x.lake.late || r == LateFor(x.known, s.command)
    ensures Dead(x.lake.log, r) ==> Dead(LakeTo(x, s).log, r)
  {
    hide Admits, Dead, AfterAppend;
    if Dead(x.lake.log, r) {
      DeadStays(x.known.view.dataSpaceId, x.lake.log, r, EventOf(x.known.view, s.command), Expected(x.known.view, s.command));
    }
  }

  lemma AnsweredKeeps(x: Remote, s: RemoteStep)
    requires RemoteInv(x) && CanTry(x, s) && Answered(x, s)
    ensures RemoteInv(RemoteAfter(x, s))
  {
    hide Known, Admits, Exec, Accepted, AnswerTo, LakeTo, Dead, LateFor, CaughtUp, Mutated;
    RetryCaughtUp(x, s);
    AnswerKeepsLawIff(x, s);
    var t := CaughtUpMoves(x, s);
    var c, y := s.command.(recordedAt := t), RemoteAfter(x, s);
    forall r | r in y.lake.late ensures Dead(y.lake.log, r) {
      LateAfterTry(x, s, r);
      if !Dead(x.lake.log, r) {
        if r in x.lake.late {
          var sent :| SentBy(x, r, sent);
          StoredIsDead(x.known, c, sent);
        } else {
          StoredIsDead(x.known, c, s.command);
        }
      }
    }
  }

  lemma SameLate(s: Sys, log: seq<StoredEvent>, a: Step, b: Step)
    requires SameCall(a, b) && Dead(log, LateFor(s, a))
    ensures Dead(log, LateFor(s, b))
  {
    hide KeysOf;
  }

  lemma RefusedKeeps(x: Remote, s: RemoteStep)
    requires RemoteInv(x) && s.Tries? && CanTry(x, s) && Admits(x.known.view, s.command) && AnswerTo(x, s).Refused?
    ensures RemoteInv(RemoteAfter(x, s))
  {
    hide Known, Admits, Exec, Accepted, AnswerTo, LakeTo, Dead, LateFor;
    var y := RemoteAfter(x, s);
    TryKeepsKnown(x, s);
    SameKnown(x, s);
    LogAfterTry(x, s);
    if y.lake.log != x.known.log {
      var c :| Ahead(x.known, y.lake.log, s.command, c);
      assert StoredBy(y, c);
    }
    forall r | r in y.lake.late ensures Dead(y.lake.log, r) || exists c :: SentBy(y, r, c) {
      LateAfterTry(x, s, r);
      if !Dead(x.lake.log, r) {
        var sent := s.command;
        if r in x.lake.late {
          sent :| SentBy(x, r, sent);
        }
        if y.pending.None? {
          SameLate(x.known, y.lake.log, s.command, sent);
        } else {
          assert SentBy(y, r, sent);
        }
      }
    }
  }

  lemma SameKnown(x: Remote, s: RemoteStep)
    requires s.Tries? && Admits(x.known.view, s.command) && AnswerTo(x, s).Refused? && Known(x.(lake := LakeTo(x, s)))
    ensures Known(RemoteAfter(x, s))
  {
    hide Reachable, WellFormed, Admits, AnswerTo, LakeTo;
  }

  lemma ArrivalKeeps(x: Remote, r: Late)
    requires RemoteInv(x)
    ensures RemoteInv(RemoteAfter(x, LateArrives(r)))
  {
    hide Known, Admits, Exec, Accepted, AfterAppend, Dead, LateFor;
    var d, y := x.known.view.dataSpaceId, RemoteAfter(x, LateArrives(r));
    ArrivalKeepsKnown(x, r);
    if r in x.lake.late {
      if Dead(x.lake.log, r) {
        DeadNotAppended(d, x.lake.log, r);
      } else {
        var c :| SentBy(x, r, c);
        SentArrives(x, r, c);
      }
      forall q | q in y.lake.late ensures Dead(y.lake.log, q) || exists c :: SentBy(y, q, c) {
        if Dead(x.lake.log, q) {
          DeadStays(d, x.lake.log, q, r.event, r.expected);
        } else {
          var c :| SentBy(x, q, c);
          assert SentBy(y, q, c);
        }
      }
      if x.lake.log != x.known.log && y.lake.log == x.lake.log {
        var c :| StoredBy(x, c);
        assert StoredBy(y, c);
      }
    }
  }

  /** A POST of the waiting command is appended when it arrives, unless one was already. */
  lemma SentArrives(x: Remote, r: Late, c: Step)
    requires RemoteInv(x) && SentBy(x, r, c) && r in x.lake.late
    ensures var y := RemoteAfter(x, LateArrives(r)); y.lake.log == x.known.log || y.lake.log == x.lake.log || StoredBy(y, c)
  {
    hide Reachable, WellFormed, Streamed, Admits, Exec, Accepted, AfterAppend, Dead;
    AppendIsExec(x.known, c);
    if x.lake.log != x.known.log {
      var stored :| StoredBy(x, stored);
      StoredIsDead(x.known, stored, c);
      DeadNotAppended(x.known.view.dataSpaceId, x.lake.log, r);
    }
  }

  lemma RemoteKeeps(x: Remote, s: RemoteStep)
    requires RemoteInv(x) && CanTry(x, s)
    ensures RemoteInv(RemoteAfter(x, s)) && (Answered(x, s) ==> CaughtUp(x, s))
  {
    hide RemoteInv, Admits, AnswerTo, LakeTo, CanTry, Exec, CaughtUp;
    match s
    case LateArrives(r) => ArrivalKeeps(x, r);
    case Tries(c, _, _, _) =>
      if Answered(x, s) {
        RetryCaughtUp(x, s);
        AnsweredKeeps(x, s);
      } else if Admits(x.known.view, c) {
        RefusedKeeps(x, s);
      }
  }

  /** A caller that retries an unanswered command until it is answered or settled, before any other, never overtakes. At
      every point the remote ledger replays to the live views, or to those after the one command that waits. */
  lemma {:induction false} RetryingFirstSuffices(dataSpaceId: Id, activationStream: Id, steps: seq<RemoteStep>)
    requires CanRun(RemoteStart(dataSpaceId, activationStream), steps)
    ensures NeverOvertakes(RemoteStart(dataSpaceId, activationStream), steps)
    ensures var x := RemoteRun(RemoteStart(dataSpaceId, activationStream), steps);
            && RemoteInv(x)
            && (Law(x) || exists c :: StoredBy(x, c) && Replayed(x) == Ok(Exec(x.known, c).view))
  {
    hide RemoteAfter, CanTry, RemoteInv, Law, Answered, CaughtUp, StoredBy, Replayed, Exec;
    var start := RemoteStart(dataSpaceId, activationStream);
    if steps == [] {
      EmptyInv(dataSpaceId, activationStream);
    } else {
      RetryingFirstSuffices(dataSpaceId, activationStream, steps[..|steps| - 1]);
      RemoteKeeps(RemoteRun(start, steps[..|steps| - 1]), steps[|steps| - 1]);
    }
    OneBehind(RemoteRun(start, steps));
  }

  lemma EmptyInv(dataSpaceId: Id, activationStream: Id)
    ensures RemoteInv(RemoteStart(dataSpaceId, activationStream))
  {
    hide Known;
    StartKnown(dataSpaceId, activationStream);
  }

  lemma OneBehind(x: Remote)
    requires RemoteInv(x)
    ensures Law(x) || exists c :: StoredBy(x, c) && Replayed(x) == Ok(Exec(x.known, c).view)
  {
    hide Reachable, WellFormed, Streamed, Accepted, Exec, Dead, Inv, Replay;
    LawIffKnown(x);
    if x.lake.log != x.known.log {
      var c :| StoredBy(x, c);
      ReachableStep(x.known, c);
      InvKept(x.known, c);
      ReplayedKnown(Exec(x.known, c));
      assert Replayed(x) == Ok(Exec(x.known, c).view);
    }
  }

  // ---- which command restores the law

  lemma IntentIsCall(s: Sys, a: Step, b: Step)
    requires SameIntent(EventOf(s.view, a), EventOf(s.view, b))
    ensures SameCall(a, b) && a.body == b.body
  {
  }

  /** While the waiting command is stored unseen, an answer to whatever command restores the law exactly when it answers
      a retry of that command. */
  lemma OnlyRetryRestores(x: Remote, s: RemoteStep)
    requires RemoteInv(x) && x.lake.log != x.known.log && Answered(x, s)
    ensures !Law(x) && x.pending.Some? && (Law(RemoteAfter(x, s)) <==> SameCall(s.command, x.pending.value))
  {
    hide Known, Admits, Accepted, Exec, Dead, AnswerTo, LakeTo, Law, Mutated, SameIntent, EventOf;
    StoredIsLast(x);
    KnownLaw(x);
    AnswerKeepsLawIff(x, s);
    if SameCall(s.command, x.pending.value) {
      RetryCaughtUp(x, s);
    } else {
      var c :| StoredBy(x, c);
      if CaughtUp(x, s) {
        IntentIsCall(x.known, c, s.command);
      }
    }
  }

  lemma KnownLaw(x: Remote)
    requires RemoteInv(x)
    ensures Law(x) <==> x.lake.log == x.known.log
  {
    hide Known, Law;
    LawIffKnown(x);
  }

  /** The one unseen event is that of the stored try. */
  lemma StoredIsLast(x: Remote)
    requires RemoteInv(x) && x.lake.log != x.known.log
    ensures forall c :: StoredBy(x, c) ==> |x.lake.log| == |x.known.log| + 1 && x.lake.log[|x.known.log|] == StoredFor(x.known, c)
  {
    hide Known, Admits, Handle, OutcomeOf;
  }

  // ---- when a retry is answered

  /** The holder of a stored try's key and identity is the try. */
  lemma HolderIsTheTry(s: Sys, c: Step)
    requires Reachable(s) && Accepted(s, c)
    ensures KeyHolder(Exec(s, c).log, c.key) == Some(StoredFor(s, c))
    ensures IdHolder(Exec(s, c).log, EventOf(s.view, c).eventId) == Some(StoredFor(s, c))
  {
    hide Reachable, Admits, Handle, OutcomeOf;
    TryIsUnique(s, c);
    assert Exec(s, c).log[|s.log|] == StoredFor(s, c);
    assert KeyHolder(Exec(s, c).log, c.key).Some? && IdHolder(Exec(s, c).log, EventOf(s.view, c).eventId).Some?;
  }

  lemma TryIsUnique(s: Sys, c: Step)
    requires Reachable(s) && Accepted(s, c)
    ensures forall d :: d in Exec(s, c).log && (d.event.idempotencyKey == c.key || d.event.eventId == EventOf(s.view, c).eventId) ==> d == StoredFor(s, c)
  {
    hide Reachable, Admits, Handle;
  }

  /** Two admitted tries of one call carry the same body exactly when the command writes no clock reading or both read the same. */
  lemma SameBodyIff(s: Sys, a: Step, b: Step)
    requires SameCall(a, b) && Admits(s.view, a) && Admits(s.view, b)
    ensures a.body == b.body <==> !ReadsClock(b.body) || a.now == b.now
  {
    hide AdmitsWork, AdmitsAgents, AdmitsRoutes;
  }

  /** The messages of a retry let it find its event: its POST is answered and carries the very clock reading that was
      stored, or the event is looked up, after a missing response or a conflict, and that answer arrives. */
  predicate Finds(s: RemoteStep, stored: Step)
    requires s.Tries?
  {
    || (s.post.Delivered? && s.command.recordedAt == stored.recordedAt)
    || ((s.post.NoResponse? || (s.post.Delivered? && s.conflict)) && s.get.GetAnswered?)
  }

  /** A retry of a stored command, by the same call, is answered exactly when its messages find the event and its event
      is the stored one: the command writes no clock reading into it, or reads the very same. Then the law is restored;
      otherwise nothing changes and the live views still lag. */
  lemma RetryAnsweredIff(x: Remote, s: RemoteStep, stored: Step)
    requires RemoteInv(x) && StoredBy(x, stored) && s.Tries? && SameCall(s.command, x.pending.value) && Admits(x.known.view, s.command)
    ensures Answered(x, s) <==> (!ReadsClock(stored.body) || s.command.now == stored.now) && Finds(s, stored)
    ensures Law(RemoteAfter(x, s)) <==> Answered(x, s)
    ensures !Answered(x, s) ==> RemoteAfter(x, s).known == x.known && RemoteAfter(x, s).lake.log == x.lake.log
  {
    hide Known, Admits, Exec, RemoteInv, AnswerTo, LakeTo, Law, Mutated, Dead;
    KnownOf(x);
    AcceptedAdmits(x.known, stored);
    SameBodyIff(x.known, s.command, stored);
    AnswerToRetry(x, s, stored);
    StoredAhead(x, stored);
    LogAfterTry(x, s);
    if Answered(x, s) {
      OnlyRetryRestores(x, s);
    } else {
      RefusedKeeps(x, s);
      KnownLaw(RemoteAfter(x, s));
    }
  }

  lemma KnownOf(x: Remote)
    requires RemoteInv(x)
    ensures Reachable(x.known)
  {
    hide Reachable, WellFormed, Streamed;
  }

  lemma AcceptedAdmits(s: Sys, c: Step)
    requires Accepted(s, c)
    ensures Admits(s.view, c)
  {
    hide Admits, OutcomeOf;
  }

  lemma StoredAhead(x: Remote, c: Step)
    requires StoredBy(x, c)
    ensures x.lake.log == x.known.log + [StoredFor(x.known, c)]
  {
    hide Admits, Handle, OutcomeOf;
  }

  /** What a retry is answered, by its body and its messages. */
  lemma AnswerToRetry(x: Remote, s: RemoteStep, stored: Step)
    requires Reachable(x.known) && StoredBy(x, stored) && s.Tries? && SameCall(s.command, x.pending.value) && Admits(x.known.view, s.command)
    ensures !AnswerTo(x, s).Refused? <==> s.command.body == stored.body && Finds(s, stored)
  {
    hide Reachable, Admits, Accepted, Exec, AfterAppend;
    var e := EventOf(x.known.view, s.command);
    HolderIsTheTry(x.known, stored);
    SameHolder(x.known, s.command, stored);
    StoredIsDead(x.known, stored, s.command);
    DeadNotAppended(x.known.view.dataSpaceId, x.lake.log, LateFor(x.known, s.command));
    assert OutcomeOf(x.known.view.dataSpaceId, x.lake.log, e, Expected(x.known.view, s.command)) ==
             if s.command.body == stored.body && s.command.recordedAt == stored.recordedAt
             then Duplicate(StoredFor(x.known, stored).cursor, e.streamVersion)
             else Refused(InvariantViolation);
  }

  /** Two tries of one call have the same identity and expected version; their events are the same up to the envelope's
      clock reading exactly when their bodies are. */
  lemma SameHolder(s: Sys, a: Step, b: Step)
    requires SameCall(a, b)
    ensures Expected(s.view, a) == Expected(s.view, b) && EventOf(s.view, a).eventId == EventOf(s.view, b).eventId
    ensures SameIntent(EventOf(s.view, b), EventOf(s.view, a)) <==> a.body == b.body
    ensures EventOf(s.view, b) == EventOf(s.view, a) <==> a.body == b.body && a.recordedAt == b.recordedAt
  {
  }

  // ---- a retry that can never be answered

  /** The step is a late arrival, or a retry of the stored command at another clock reading. */
  predicate LaterRetry(s: RemoteStep, stored: Step) {
    s.Tries? ==> SameCall(s.command, stored) && s.command.now != stored.now
  }

  lemma StuckStep(x: Remote, stored: Step, s: RemoteStep)
    requires RemoteInv(x) && StoredBy(x, stored) && ReadsClock(stored.body) && LaterRetry(s, stored)
    ensures var y := RemoteAfter(x, s); RemoteInv(y) && StoredBy(y, stored) && y.known == x.known && !Law(y)
  {
    hide Known, Admits, Accepted, Exec, AnswerTo, LakeTo, Dead, Law, AfterAppend;
    StoredAhead(x, stored);
    KnownLaw(x);
    match s {
    case LateArrives(r) =>
      ArrivalKeeps(x, r);
      LateIsDead(x, stored, r);
    case Tries(c, _, _, _) =>
      if Admits(x.known.view, c) {
        RetryAnsweredIff(x, s, stored);
        RefusedKeeps(x, s);
        StillWaits(x, s);
      }
    }
    KnownLaw(RemoteAfter(x, s));
  }

  lemma StillWaits(x: Remote, s: RemoteStep)
    requires s.Tries? && Admits(x.known.view, s.command) && AnswerTo(x, s).Refused? && LakeTo(x, s).log != x.known.log
    ensures RemoteAfter(x, s).pending == Some(s.command)
  {
    hide Admits, AnswerTo, LakeTo, Dead;
  }

  lemma LateIsDead(x: Remote, stored: Step, r: Late)
    requires RemoteInv(x) && StoredBy(x, stored)
    ensures RemoteAfter(x, LateArrives(r)).lake.log == x.lake.log
  {
    hide Known, Admits, Accepted, Exec, AfterAppend, Dead;
    if r in x.lake.late {
      if !Dead(x.lake.log, r) {
        var c :| SentBy(x, r, c);
        StoredIsDead(x.known, stored, c);
      }
      DeadNotAppended(x.known.view.dataSpaceId, x.lake.log, r);
    }
  }

  /** Once the clock has moved on, a stored command that wrote its reading is never answered: over any run of retries of
      the call, whatever becomes of their messages, the live views stay without it. */
  lemma {:induction false} StuckForGood(x: Remote, stored: Step, more: seq<RemoteStep>)
    requires RemoteInv(x) && StoredBy(x, stored) && ReadsClock(stored.body)
    requires forall i :: 0 <= i < |more| ==> LaterRetry(more[i], stored)
    ensures var y := RemoteRun(x, more); RemoteInv(y) && StoredBy(y, stored) && y.known == x.known && !Law(y)
  {
    hide RemoteAfter, LaterRetry, StoredBy, Law, RemoteInv;
    if more == [] {
      NotYet(x, stored);
    } else {
      StuckForGood(x, stored, more[..|more| - 1]);
      StuckStep(RemoteRun(x, more[..|more| - 1]), stored, more[|more| - 1]);
    }
  }

  lemma NotYet(x: Remote, stored: Step)
    requires RemoteInv(x) && StoredBy(x, stored)
    ensures !Law(x)
  {
    hide Known, Law, Accepted, Exec;
    StoredAhead(x, stored);
    KnownLaw(x);
  }
}
