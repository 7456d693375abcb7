/** The converse of a recorded success: when a success of the host is recorded as one, over any later run, and two runs
    in which it is not, because the call was still in progress or because its result does not validate. */
module CrossWitness {
  import opened Models
  import opened Events
  import opened Ledger
  import opened Views
  import opened Commands
  import opened Consistency
  import opened Runs
  import opened Acceptance
  import opened Executions
  import opened Witness
  import opened Leases
  import opened Receipts
  import opened CrossProcess

  // ---- outcomes stay

  lemma CrossStepForward(x: Cross, step: CrossStep)
    requires Reachable(x.sys) && HostInv(x.host)
    ensures var y := CrossAfter(x, step);
            && Reachable(y.sys) && AllFollow(x.sys.view.agents.executions, y.sys.view.agents.executions)
            && HostInv(y.host) && RowsKept(x.host.rows, y.host.rows) && x.sys.log <= y.sys.log
  {
    hide Reachable, HostInv, Exec, HostAfter, ReceiptConsistent, AnswersRequest, IsSuccess, ReportStep, Follows;
    FollowSelf(x.sys.view.agents.executions);
    match step
    case AtHost(h) => HostKeeps(x.host, h);
    case HostAnswers(_) =>
    case Sends(_, _) =>
    case RecordsSuccess(id, r, c) =>
      if id in x.sys.view.agents.executions {
        ExecForward(x.sys, ReportStep(x.sys.view, id, ReportOf(r), c));
      }
    case Commands(command) => ExecForward(x.sys, command);
  }

  lemma FollowSelf(xs: map<Id, Execution>)
    ensures AllFollow(xs, xs)
  {
  }

  lemma ExecForward(s: Sys, step: Step)
    requires Reachable(s)
    ensures Reachable(Exec(s, step)) && AllFollow(s.view.agents.executions, Exec(s, step).view.agents.executions)
    ensures s.log <= Exec(s, step).log
  {
    hide Reachable, Inv, Exec, Accepted, Moves, AllFollow;
    ReachableInv(s);
    ReachableStep(s, step);
    ExecMoves(s, step);
    ExecLog(s, step);
    if Accepted(s, step) {
      FollowMove(s, step, Exec(s, step));
    } else {
      FollowSelf(s.view.agents.executions);
    }
  }

  /** Over any further run, executions move forward and final receipts stay: an outcome that is terminal in the Kernel
      and one that is final at the host never change, whether they agree or not. */
  lemma {:induction false} OutcomesStay(x: Cross, more: seq<CrossStep>)
    requires Reachable(x.sys) && HostInv(x.host)
    ensures var y := CrossRun(x, more);
            && Reachable(y.sys) && AllFollow(x.sys.view.agents.executions, y.sys.view.agents.executions)
            && HostInv(y.host) && RowsKept(x.host.rows, y.host.rows) && x.sys.log <= y.sys.log
  {
    hide Reachable, HostInv, CrossAfter;
    if more == [] {
      FollowSelf(x.sys.view.agents.executions);
    } else {
      OutcomesStay(x, more[..|more| - 1]);
      CrossStepForward(CrossRun(x, more[..|more| - 1]), more[|more| - 1]);
    }
  }

  // ---- when a success is recorded

  /** The call was answered with the final receipt of the request, and a result in it validates. */
  predicate FinalAnswer(p: Payload, post: HttpReply, get: HttpReply, valid: Option<Json> -> bool) {
    var answer := if post.Lost? then get else post;
    answer.Answered? && answer.receipt.receiptId == p.receiptId && Final(answer.receipt) && valid(answer.receipt.result)
  }

  /** The host has ended the request with a success that answers it. */
  predicate HostSucceeded(rows: Rows, request: Sent) {
    && request.payload.receiptId in rows
    && var row := rows[request.payload.receiptId];
       row.status.ReceiptSucceeded? && ReceiptConsistent(row) && AnswersRequest(WORK_ENDPOINT, request.payload, request.candidate, row)
  }

  /** A success is what the client makes of the answer exactly when the answer is final and validates. */
  lemma SucceededIff(x: Cross, y: Cross, request: Sent, post: HttpReply, get: HttpReply, valid: Option<Json> -> bool, o: ClientOutcome)
    requires RepliesTrue(x) && RowsKept(x.host.rows, y.host.rows) && HostSucceeded(y.host.rows, request)
    requires OnNetwork(x.replies, post) && OnNetwork(x.replies, get)
    requires WorkClassifies(request.payload, request.candidate, post, get, valid, o)
    ensures o.Succeeded? <==> FinalAnswer(request.payload, post, get, valid)
  {
    hide ReceiptConsistent;
    var answer := if post.Lost? then get else post;
    if o.Succeeded? {
      assert o == Succeeded(answer.receipt);
    }
    if FinalAnswer(request.payload, post, get, valid) {
      var id := request.payload.receiptId;
      assert answer.receipt in x.replies && x.host.rows[id] == answer.receipt && y.host.rows[id] == x.host.rows[id];
    }
  }

  /** The completion records one receipt, a success exactly for the outcome of one. */
  lemma CompletionRecords(x: Cross, id: Id, post: HttpReply, get: HttpReply, valid: Option<Json> -> bool, o: ClientOutcome,
      snapshot: Option<string>, freshId: Id, c: Caller) returns (d: StoredEvent)
    requires Reachable(x.sys) && id in x.sys.view.agents.executions && x.sys.view.agents.executions[id].state.Requested? && id in x.sent
    requires OnNetwork(x.replies, post) && OnNetwork(x.replies, get)
    requires WorkClassifies(x.sent[id].payload, x.sent[id].candidate, post, get, valid, o)
    requires c.key + FinishSuffix(o) !in KeysOf(x.sys.log) && id != x.sys.view.activation.streamId
    ensures var z := CrossAfter(x, CompletionStep(x, id, o, snapshot, freshId, c));
            z.sys.log == x.sys.log + [d] && IsReceipt(d, id) && (IsSuccess(d.event.body) <==> o.Succeeded?)
  {
    hide Reachable, Accepted, Exec, KeysOf, ReceiptConsistent, AnswersRequest, CrossAfter, CompletionStep, AssignmentFor;
    var caller := c.(key := c.key + FinishSuffix(o));
    var report := ReportStep(x.sys.view, id, FinishReport(o, snapshot, freshId), caller);
    ClassifiedReceipt(x.sent[id].payload, x.sent[id].candidate, post, get, valid, o);
    ReportAccepted(x.sys, id, o, snapshot, freshId, caller);
    CompletionIsStep(x, id, post, get, valid, o, snapshot, freshId, c);
    AcceptedLog(x.sys, report);
    d := StoredFor(x.sys, report);
    assert d.event.streamId == id && d.event.body == report.body;
    ReportedSuccess(x, id, post, get, valid, o, snapshot, freshId);
  }

  lemma AcceptedLog(s: Sys, step: Step)
    requires Accepted(s, step)
    ensures Exec(s, step).log == s.log + [StoredFor(s, step)]
  {
    hide Accepted, Handle;
  }

  lemma ReportedSuccess(x: Cross, id: Id, post: HttpReply, get: HttpReply, valid: Option<Json> -> bool, o: ClientOutcome, snapshot: Option<string>, freshId: Id)
    requires id in x.sent && WorkClassifies(x.sent[id].payload, x.sent[id].candidate, post, get, valid, o)
    ensures FinishReport(o, snapshot, freshId).status.ReceiptSucceeded? <==> o.Succeeded?
  {
    hide ReceiptConsistent, AnswersRequest;
  }

  /** The receipt is the only one of the execution that the ledger holds. */
  ghost predicate OnlyReceipt(log: seq<StoredEvent>, id: Id, d: StoredEvent) {
    d in log && IsReceipt(d, id) && forall q :: q in log && IsReceipt(q, id) ==> q == d
  }

  /** Over any later run in which the host ends the request with a success that answers it: exactly one receipt is ever
      recorded for the execution, and it is a success exactly when the answer that the call was given was final and its
      result validates. A call that got no answer, one in progress, or a result that does not validate is recorded
      otherwise, for good. */
  lemma SuccessRecordedIff(x: Cross, id: Id, post: HttpReply, get: HttpReply, valid: Option<Json> -> bool, o: ClientOutcome,
      snapshot: Option<string>, freshId: Id, c: Caller, more: seq<CrossStep>) returns (d: StoredEvent)
    requires CrossInv(x) && Reachable(x.sys) && id in x.sent
    requires id in x.sys.view.agents.executions && x.sys.view.agents.executions[id].state.Requested? && id != x.sys.view.activation.streamId
    requires OnNetwork(x.replies, post) && OnNetwork(x.replies, get)
    requires WorkClassifies(x.sent[id].payload, x.sent[id].candidate, post, get, valid, o)
    requires c.key + FinishSuffix(o) !in KeysOf(x.sys.log)
    requires HostSucceeded(CrossRun(CrossAfter(x, CompletionStep(x, id, o, snapshot, freshId, c)), more).host.rows, x.sent[id])
    ensures var y := CrossRun(CrossAfter(x, CompletionStep(x, id, o, snapshot, freshId, c)), more);
            OnlyReceipt(y.sys.log, id, d) && (IsSuccess(d.event.body) <==> FinalAnswer(x.sent[id].payload, post, get, valid))
  {
    hide Reachable, HostInv, CrossRun, CrossAfter, CompletionStep, KeysOf, AllAgree, RepliesTrue, RowsKept, WorkClassifies, FinalAnswer, HostSucceeded,
      IsReceipt, IsSuccess, AllFollow;
    d := CompletionRecords(x, id, post, get, valid, o, snapshot, freshId, c);
    var z := CrossAfter(x, CompletionStep(x, id, o, snapshot, freshId, c));
    CrossStepForward(x, CompletionStep(x, id, o, snapshot, freshId, c));
    OutcomesStay(z, more);
    var y := CrossRun(z, more);
    KeptTwice(x.host.rows, z.host.rows, y.host.rows);
    SucceededIff(x, y, x.sent[id], post, get, valid, o);
    var n := |x.sys.log|;
    assert z.sys.log[n] == d && y.sys.log[n] == d;
    forall q | q in y.sys.log && IsReceipt(q, id) ensures q == d {
      var i :| 0 <= i < |y.sys.log| && y.sys.log[i] == q;
      if i < n {
        OneReceiptOneName(y.sys, i, n, id);
      } else if n < i {
        OneReceiptOneName(y.sys, n, i, id);
      }
    }
  }

  lemma KeptTwice(a: Rows, b: Rows, c: Rows)
    requires RowsKept(a, b) && RowsKept(b, c)
    ensures RowsKept(a, c)
  {
  }

  // ---- host successes that are never recorded

  /** A session of commands as steps of the whole system. */
  function AsCommands(steps: seq<Step>): seq<CrossStep> {
    if steps == [] then [] else AsCommands(steps[..|steps| - 1]) + [Commands(steps[|steps| - 1])]
  }

  lemma {:induction false} CommandsRun(steps: seq<Step>)
    requires forall i :: 0 <= i < |steps| ==> !steps[i].body.ReceiptRecorded?
    ensures CrossRun(CrossStart(SPACE, STREAM), AsCommands(steps)) == Cross(Run(Start(SPACE, STREAM), steps), EMPTY_HOST, {}, map[])
  {
    hide Exec;
    if steps != [] {
      var front, last := steps[..|steps| - 1], steps[|steps| - 1];
      CommandsRun(front);
      CrossSnoc(CrossStart(SPACE, STREAM), AsCommands(front), Commands(last));
    }
  }

  lemma CrossSnoc(x: Cross, steps: seq<CrossStep>, step: CrossStep)
    ensures CrossRun(x, steps + [step]) == CrossAfter(CrossRun(x, steps), step)
  {
    hide CrossAfter;
    assert (steps + [step])[..|steps|] == steps;
  }

  const REQUEST := Sent(Payload("q", "call", "candidate", None, ""), Candidate("candidate", false, None))

  const PENDING := Fresh(WORK_ENDPOINT, REQUEST.payload)

  const DONE := Produced(Some("result"), Some("model"), Some("usage"), Some("session"))

  const CALLER := Caller("pilot", "k", 0, 0)

  /** The response to the POST is lost and the GET finds the receipt in progress: not an outcome the client foresees. */
  lemma PendingIsViolation(o: ClientOutcome)
    requires Classifies(WORK_ENDPOINT, REQUEST.payload, REQUEST.candidate, Lost, Answered(PENDING), o)
    ensures o == Violation
  {
  }

  /** A session that has a requested execution. */
  lemma RequestedSession() returns (steps: seq<Step>, s: Sys)
    ensures Built(steps, s, {"1", "2", "3", "4", "5", "6", "7"}) && s.view.agents.executions == map["x" := EXECUTION]
  {
    hide Moves, Run, KeysOf, Built, AdmitsWork, AdmitsEffects, AdmitsRoutes, AdmitsActivation, NameRegistered, ValidAgentMessage;
    steps, s := Activated0();
    var keys := {"1", "2", "3", "4", "5", "6"};
    ServicesOf(steps, s, keys);
    var create, p := Human0("x", ExecutionCreated(EXECUTION), "7"), s;
    s := KernelStep(steps, p, keys, create);
    steps := steps + [create];
    ExecutionScene(p, create, s);
    assert keys + {"7"} == {"1", "2", "3", "4", "5", "6", "7"};
  }

  /** The report of an unforeseen failure is accepted and fails the execution. */
  lemma FailureRecorded(s: Sys, step: Step)
    requires Reachable(s) && s.view.agents.executions == map["x" := EXECUTION] && s.view.activation.streamId == STREAM
    requires "k:unexpected-dispatch-failure" !in KeysOf(s.log)
    requires step == ReportStep(s.view, "x", FinishReport(Violation, None, "v"), CALLER.(key := "k:unexpected-dispatch-failure"))
    ensures !IsSuccess(step.body)
    ensures Accepted(s, step) && Exec(s, step).view.agents.executions == map["x" := EXECUTION.(state := FailedExecution)]
  {
    hide Reachable, Accepted, Exec, Moves, KeysOf, AdmitsWork, AdmitsEffects, AdmitsRoutes, AdmitsActivation, NameRegistered, ValidAgentMessage, AssignmentFor;
    KeyUsedIff(s.log, step.key);
    assert "x" != STREAM by { assert |STREAM| != 1; }
    AcceptedIff(s, step);
    AcceptedMoves(s, step);
    AgentMove(s, step, Exec(s, step));
  }

  /** One more step of the whole system. */
  lemma Next(steps: seq<CrossStep>, x: Cross, step: CrossStep) returns (more: seq<CrossStep>, y: Cross)
    requires CrossRun(CrossStart(SPACE, STREAM), steps) == x
    ensures more == steps + [step] && y == CrossAfter(x, step) && CrossRun(CrossStart(SPACE, STREAM), more) == y
  {
    hide CrossRun, CrossAfter;
    CrossSnoc(CrossStart(SPACE, STREAM), steps, step);
    more, y := steps + [step], CrossAfter(x, step);
  }

  /** The execution's request was sent and the host's answer that it is in progress is on the network. */
  lemma PendingAnswered() returns (steps: seq<CrossStep>, x: Cross, keys: set<string>)
    ensures CrossRun(CrossStart(SPACE, STREAM), steps) == x && Reachable(x.sys)
    ensures x.sys.view.agents.executions == map["x" := EXECUTION] && x.sys.view.activation.streamId == STREAM
    ensures "k:unexpected-dispatch-failure" !in KeysOf(x.sys.log)
    ensures x.sent == map["x" := REQUEST] && x.replies == {PENDING}
    ensures x.host == Host(map["q" := PENDING], map["q" := ToInvoke(REQUEST.payload)], [])
  {
    hide Run, KeysOf, Built, Reachable, CrossRun;
    var session, s := RequestedSession();
    keys := {"1", "2", "3", "4", "5", "6", "7"};
    BuiltReachable(session, s, keys);
    BuiltRuns(session, s, keys);
    assert "k:unexpected-dispatch-failure" !in keys by { assert |"k:unexpected-dispatch-failure"| > 1; }
    steps, x := Next(AsCommands(session), Cross(s, EMPTY_HOST, {}, map[]), Sends("x", REQUEST));
    assert Matches(map[], REQUEST.payload) == {};
    steps, x := Next(steps, x, AtHost(Posted(WORK_ENDPOINT, REQUEST.payload)));
    steps, x := Next(steps, x, HostAnswers("q"));
    assert {} + {PENDING} == {PENDING};
  }

  lemma BuiltRuns(steps: seq<Step>, s: Sys, keys: set<string>)
    requires Built(steps, s, keys)
    ensures CrossRun(CrossStart(SPACE, STREAM), AsCommands(steps)) == Cross(s, EMPTY_HOST, {}, map[])
    ensures KeysOf(s.log) == keys && s.view.activation.streamId == STREAM
  {
    hide Run, KeysOf, CrossRun;
    CommandsRun(steps);
  }

  /** A run in which the Kernel records a call as failed that then succeeds at the host: the response to the POST was
      lost and the GET found the receipt in progress. By OutcomesStay both outcomes are there for good. */
  lemma SuccessUnrecorded() returns (before: seq<CrossStep>, after: seq<CrossStep>)
    ensures var x := CrossRun(CrossStart(SPACE, STREAM), before);
            && "x" in x.sys.view.agents.executions && "x" in x.sent && x.sent["x"] == REQUEST && PENDING in x.replies
            && var y := CrossRun(CrossStart(SPACE, STREAM), before + [CompletionStep(x, "x", Violation, None, "v", CALLER)] + after);
               && "x" in y.sys.view.agents.executions && y.sys.view.agents.executions["x"].state.FailedExecution?
               && "q" in y.host.rows && y.host.rows["q"].status.ReceiptSucceeded? && ReceiptConsistent(y.host.rows["q"])
               && AnswersRequest(WORK_ENDPOINT, REQUEST.payload, REQUEST.candidate, y.host.rows["q"])
  {
    hide KeysOf, Reachable, CrossRun, Exec, Accepted, ReportStep;
    var x, keys;
    before, x, keys := PendingAnswered();
    var report := ReportStep(x.sys.view, "x", FinishReport(Violation, None, "v"), CALLER.(key := "k:unexpected-dispatch-failure"));
    assert CALLER.key + FinishSuffix(Violation) == "k:unexpected-dispatch-failure";
    FailureRecorded(x.sys, report);
    assert CompletionStep(x, "x", Violation, None, "v", CALLER) == Commands(report);
    var steps, y := Next(before, x, Commands(report));
    after := [AtHost(ProviderCalled("q", DONE)), AtHost(Finished("q"))];
    steps, y := Next(steps, y, after[0]);
    steps, y := Next(steps, y, after[1]);
    assert steps == before + [Commands(report)] + after;
  }

  const ENDED := Receipts.Ended(PENDING, DONE)

  /** A succeeded receipt whose result does not validate is not an outcome the client foresees either. */
  lemma InvalidIsViolation(valid: Option<Json> -> bool, o: ClientOutcome)
    requires !valid(Some("result")) && WorkClassifies(REQUEST.payload, REQUEST.candidate, Answered(ENDED), Lost, valid, o)
    ensures o == Violation
  {
    assert Classifies(WORK_ENDPOINT, REQUEST.payload, REQUEST.candidate, Answered(ENDED), Lost, Succeeded(ENDED));
  }

  /** The request was sent and the host's answer that it succeeded is on the network. */
  lemma SuccessAnswered() returns (steps: seq<CrossStep>, x: Cross)
    ensures CrossRun(CrossStart(SPACE, STREAM), steps) == x && Reachable(x.sys)
    ensures x.sys.view.agents.executions == map["x" := EXECUTION] && x.sys.view.activation.streamId == STREAM
    ensures "k:unexpected-dispatch-failure" !in KeysOf(x.sys.log)
    ensures x.sent == map["x" := REQUEST] && ENDED in x.replies && HostSucceeded(x.host.rows, REQUEST)
  {
    hide KeysOf, Reachable, CrossRun, Exec;
    var keys;
    steps, x, keys := PendingAnswered();
    steps, x := Next(steps, x, AtHost(ProviderCalled("q", DONE)));
    steps, x := Next(steps, x, AtHost(Finished("q")));
    steps, x := Next(steps, x, HostAnswers("q"));
  }

  /** A run in which the host succeeds before it answers, the client gets that answer, and the Kernel records the call as
      failed because the result does not validate. */
  lemma InvalidResultUnrecorded() returns (before: seq<CrossStep>)
    ensures var x := CrossRun(CrossStart(SPACE, STREAM), before);
            && "x" in x.sys.view.agents.executions && "x" in x.sent && x.sent["x"] == REQUEST && ENDED in x.replies
            && HostSucceeded(x.host.rows, REQUEST)
            && var y := CrossRun(CrossStart(SPACE, STREAM), before + [CompletionStep(x, "x", Violation, None, "v", CALLER)]);
               "x" in y.sys.view.agents.executions && y.sys.view.agents.executions["x"].state.FailedExecution? && HostSucceeded(y.host.rows, REQUEST)
  {
    hide KeysOf, Reachable, CrossRun, Exec, Accepted, ReportStep;
    var x;
    before, x := SuccessAnswered();
    var report := ReportStep(x.sys.view, "x", FinishReport(Violation, None, "v"), CALLER.(key := "k:unexpected-dispatch-failure"));
    assert CALLER.key + FinishSuffix(Violation) == "k:unexpected-dispatch-failure";
    FailureRecorded(x.sys, report);
    assert CompletionStep(x, "x", Violation, None, "v", CALLER) == Commands(report);
    var steps, y := Next(before, x, Commands(report));
  }
}
