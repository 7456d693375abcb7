/** The Pilot client and the dispatcher's side of a work execution: what the client makes of a
    lost response, what is recorded in the Kernel, and why a recorded success is permanently a
    success of the host as well. */
module CrossProcess {
  import opened Models
  import opened Events
  import opened Ledger
  import opened Views
  import opened Commands
  import opened Consistency
  import opened Runs
  import opened Acceptance
  import opened Activation
  import opened KernelService
  import opened Receipts

  const WORK_ENDPOINT: string := "/v1/work-executions"

  datatype Candidate = Candidate(key: string, exact: bool, modelSnapshot: Option<string>)

  /** The client accepts only receipts whose fields fit their status. */
  predicate ReceiptConsistent(r: Receipt) {
    match r.status
    case InProgress => true
    case ReceiptSucceeded => r.actualModel.Some? && r.providerSessionId.Some? && r.usage.Some? && r.result.Some? && r.error.None?
    case _ => r.result.None? && r.error.Some?
  }

  /** The receipt answers this very request. */
  predicate AnswersRequest(endpoint: string, p: Payload, c: Candidate, r: Receipt) {
    && SameRequest(r, endpoint, p) && r.key == p.key && r.candidateKey == c.key
    && (c.exact ==> r.requestedModel == c.modelSnapshot)
  }

  /** What came back over the network: nothing, an error response, or a receipt. */
  datatype HttpReply = Lost | HttpFailure | Answered(receipt: Receipt)

  datatype ClientOutcome =
    | Succeeded(receipt: Receipt) | UnknownOutcome(receipt: Receipt) | ModelMismatch(receipt: Receipt)
    | FailedOutcome(receipt: Receipt) | Unreachable(receiptId: Id) | Violation

  const MISMATCH: string := "RequestedActualModelMismatch"

  /** The outcome that an exchange has for the client. */
  predicate Classifies(endpoint: string, p: Payload, c: Candidate, post: HttpReply, get: HttpReply, o: ClientOutcome) {
    var answer := if post.Lost? then get else post;
    var fits := answer.Answered? && ReceiptConsistent(answer.receipt) && AnswersRequest(endpoint, p, c, answer.receipt);
    && (o.Unreachable? <==> post.Lost? && get.Lost?)
    && (o.Unreachable? ==> o.receiptId == p.receiptId)
    && (o.Violation? <==> !(post.Lost? && get.Lost?) && (!fits || answer.receipt.status.InProgress?))
    && (o.Succeeded? <==> fits && answer.receipt.status.ReceiptSucceeded?)
    && (o.UnknownOutcome? <==> fits && answer.receipt.status.TransportUnknown?)
    && (o.ModelMismatch? <==> fits && answer.receipt.status.ReceiptFailed? && answer.receipt.error == Some(MISMATCH))
    && (o.FailedOutcome? <==> fits && answer.receipt.status.ReceiptFailed? && answer.receipt.error != Some(MISMATCH))
    && (!o.Unreachable? && !o.Violation? ==> o.receipt == answer.receipt)
  }

  /** Posts a request; a lost response is looked up with a GET. */
  method PostReceipt(endpoint: string, p: Payload, c: Candidate, post: HttpReply, get: HttpReply) returns (o: ClientOutcome)
    ensures Classifies(endpoint, p, c, post, get, o)
    ensures o.ModelMismatch? ==> o.receipt.error == Some("RequestedActualModelMismatch")
    ensures o.FailedOutcome? ==> o.receipt.error != Some("RequestedActualModelMismatch")
  {
    var receipt;
    match post {
    case Lost =>
      match get {
      case Lost => return Unreachable(p.receiptId);
      case HttpFailure => return Violation;
      case Answered(r) => receipt := r;
      }
    case HttpFailure => return Violation;
    case Answered(r) => receipt := r;
    }
    if !ReceiptConsistent(receipt) || !AnswersRequest(endpoint, p, c, receipt) {
      return Violation;
    }
    if receipt.status.TransportUnknown? {
      return UnknownOutcome(receipt);
    }
    if receipt.status.ReceiptFailed? {
      return if receipt.error == Some(MISMATCH) then ModelMismatch(receipt) else FailedOutcome(receipt);
    }
    if !receipt.status.ReceiptSucceeded? {
      return Violation;
    }
    return Succeeded(receipt);
  }

  /** The outcome of executing work: a succeeded receipt whose result does not validate is not foreseen. */
  predicate WorkClassifies(p: Payload, c: Candidate, post: HttpReply, get: HttpReply, valid: Option<Json> -> bool, o: ClientOutcome) {
    var answer := if post.Lost? then get else post;
    if answer.Answered? && Classifies(WORK_ENDPOINT, p, c, post, get, Succeeded(answer.receipt)) && !valid(answer.receipt.result)
    then o == Violation
    else Classifies(WORK_ENDPOINT, p, c, post, get, o)
  }

  /** Posts a work request and validates the result of a success. */
  method ExecuteWork(p: Payload, c: Candidate, post: HttpReply, get: HttpReply, valid: Option<Json> -> bool) returns (o: ClientOutcome)
    ensures WorkClassifies(p, c, post, get, valid, o)
  {
    o := PostReceipt(WORK_ENDPOINT, p, c, post, get);
    if o.Succeeded? && !valid(o.receipt.result) {
      return Violation;
    }
  }

  /** The report of a receipt to the Kernel. */
  function ReportOf(r: Receipt): ReceiptReport {
    ReceiptReport(r.receiptId, r.status, r.requestedModel, r.actualModel, r.providerSessionId, r.usage, r.result, r.error)
  }

  /** What the dispatcher reports for each outcome of a call; an unforeseen failure gets a receipt identity of its own. */
  function FinishReport(o: ClientOutcome, snapshot: Option<string>, freshId: Id): ReceiptReport {
    match o
    case Unreachable(id) => ReceiptReport(id, TransportUnknown, snapshot, None, None, None, None, Some("ReceiptUnreachable"))
    case Violation => ReceiptReport(freshId, ReceiptFailed, snapshot, None, None, None, None, Some("UnexpectedDispatchFailure"))
    case _ => ReportOf(o.receipt)
  }

  function FinishSuffix(o: ClientOutcome): string {
    match o
    case Unreachable(_) => ":receipt-unreachable"
    case Violation => ":unexpected-dispatch-failure"
    case _ => ":receipt"
  }

  /** The command that reports an outcome for an execution. */
  ghost function ReportStep(v: View, executionId: Id, report: ReceiptReport, c: Caller): Step
    requires executionId in v.agents.executions
  {
    StepBy(c, executionId, ReceiptRecorded(ReceiptFor(v, executionId, report)), Pilot, NoContext)
  }

  /** Records the outcome of an execution. When not even an unforeseen failure can be recorded as a receipt, the
      execution's state is failed instead, under the same key. */
  method FinishExecution(kernel: Kernel, executionId: Id, o: ClientOutcome, snapshot: Option<string>, freshId: Id, c: Caller)
    returns (recorded: bool)
    requires kernel.Valid()
    modifies kernel, kernel.ledger
    ensures kernel.Valid()
    ensures var s, report, caller := old(kernel.State()), FinishReport(o, snapshot, freshId), c.(key := c.key + FinishSuffix(o));
            && (executionId in s.view.agents.executions ==>
                  if o.Violation? && !Accepted(s, ReportStep(s.view, executionId, report, caller))
                  then Did(recorded, s, StepBy(caller, executionId, ExecutionStateChanged(FailedExecution, None), System, NoContext), kernel.State())
                  else Did(recorded, s, ReportStep(s.view, executionId, report, caller), kernel.State()))
            && (executionId !in s.view.agents.executions ==> !recorded && kernel.State() == s)
  {
    hide Kernel.Valid, Accepted, Exec, ReceiptFor;
    var caller := c.(key := c.key + FinishSuffix(o));
    recorded := kernel.RecordReceipt(executionId, FinishReport(o, snapshot, freshId), caller);
    if o.Violation? && !recorded {
      ghost var s := old(kernel.State());
      if executionId in s.view.agents.executions {
        RefusedStays(s, ReportStep(s.view, executionId, FinishReport(o, snapshot, freshId), caller));
      } else {
        UnknownExecutionRefused(s, StepBy(caller, executionId, ExecutionStateChanged(FailedExecution, None), System, NoContext));
      }
      recorded := kernel.SetExecutionState(executionId, FailedExecution, None, System, caller);
    }
  }

  lemma UnknownExecutionRefused(s: Sys, step: Step)
    requires step.body.ExecutionStateChanged? && step.streamId !in s.view.agents.executions
    ensures !Accepted(s, step) && Exec(s, step) == s
  {
    hide Handle, OutcomeOf, AdmitsWork, AdmitsEffects, AdmitsRoutes, AdmitsActivation;
  }

  lemma RefusedStays(s: Sys, step: Step)
    requires !Accepted(s, step)
    ensures Exec(s, step) == s
  {
    hide Accepted;
  }

  // ---- the whole system

  /** The request that an execution was started with. */
  datatype Sent = Sent(payload: Payload, candidate: Candidate)

  /** The Kernel, the host, every answer the host ever put on the network, and the requests of the executions. */
  datatype Cross = Cross(sys: Sys, host: Host, replies: set<Receipt>, sent: map<Id, Sent>)

  datatype CrossStep =
    | AtHost(step: HostStep)
    | HostAnswers(receiptId: Id)
    | Sends(executionId: Id, request: Sent)
    | RecordsSuccess(executionId: Id, receipt: Receipt, caller: Caller)
    | Commands(command: Step)

  predicate IsSuccess(b: EventBody) {
    b.ReceiptRecorded? && b.record.report.status.ReceiptSucceeded?
  }

  /** One step. A POST or GET answer carries a row as it is when it leaves the host; answers may be lost, delayed or
      delivered to any later step. Only the dispatcher records successes, each from an answer it accepted. */
  ghost function CrossAfter(x: Cross, step: CrossStep): Cross {
    match step
    case AtHost(h) => x.(host := HostAfter(x.host, h))
    case HostAnswers(id) => if id in x.host.rows then x.(replies := x.replies + {x.host.rows[id]}) else x
    case Sends(id, request) => if id in x.sent then x else x.(sent := x.sent[id := request])
    case RecordsSuccess(id, r, c) =>
      if && r in x.replies && r.status.ReceiptSucceeded? && ReceiptConsistent(r)
         && id in x.sent && AnswersRequest(WORK_ENDPOINT, x.sent[id].payload, x.sent[id].candidate, r)
         && id in x.sys.view.agents.executions
      then x.(sys := Exec(x.sys, ReportStep(x.sys.view, id, ReportOf(r), c)))
      else x
    case Commands(command) => if IsSuccess(command.body) then x else x.(sys := Exec(x.sys, command))
  }

  ghost function CrossRun(x: Cross, steps: seq<CrossStep>): Cross {
    if steps == [] then x else CrossAfter(CrossRun(x, steps[..|steps| - 1]), steps[|steps| - 1])
  }

  /** The recorded success is a success of the host: same id, key, request, result and usage. */
  predicate Agrees(rows: Rows, sent: map<Id, Sent>, r: ReceiptRecord) {
    && r.executionId in sent
    && r.report.receiptId == sent[r.executionId].payload.receiptId
    && r.report.receiptId in rows
    && var row := rows[r.report.receiptId];
       && row.status.ReceiptSucceeded? && row.endpoint == WORK_ENDPOINT
       && row.key == sent[r.executionId].payload.key && row.digest == RequestDigest(sent[r.executionId].payload)
       && r.report == ReportOf(row)
  }

  ghost predicate AllAgree(x: Cross) {
    forall d :: d in x.sys.log && IsSuccess(d.event.body) ==> Agrees(x.host.rows, x.sent, d.event.body.record)
  }

  /** What the host once answered with a final status is what it still holds. */
  ghost predicate RepliesTrue(x: Cross) {
    forall r :: r in x.replies && Final(r) ==> r.receiptId in x.host.rows && x.host.rows[r.receiptId] == r
  }

  ghost predicate CrossInv(x: Cross) {
    HostInv(x.host) && RepliesTrue(x) && AllAgree(x)
  }

  lemma ExecLog(s: Sys, step: Step)
    ensures Exec(s, step).log == s.log || Exec(s, step).log == s.log + [StoredFor(s, step)]
    ensures StoredFor(s, step).event.body == step.body
  {
    hide Accepted, Handle;
  }

  lemma HostStepKeeps(x: Cross, h: HostStep)
    requires CrossInv(x)
    ensures CrossInv(CrossAfter(x, AtHost(h)))
  {
    hide HostInv, HostAfter, Exec;
    HostKeeps(x.host, h);
  }

  lemma AnswerKeeps(x: Cross, id: Id)
    requires CrossInv(x)
    ensures CrossInv(CrossAfter(x, HostAnswers(id)))
  {
    hide Exec;
  }

  lemma RecordKeeps(x: Cross, id: Id, r: Receipt, c: Caller)
    requires CrossInv(x)
    ensures CrossInv(CrossAfter(x, RecordsSuccess(id, r, c)))
  {
    hide HostInv, Exec;
    if id in x.sys.view.agents.executions {
      ExecLog(x.sys, ReportStep(x.sys.view, id, ReportOf(r), c));
    }
  }

  lemma CommandKeeps(x: Cross, command: Step)
    requires CrossInv(x)
    ensures CrossInv(CrossAfter(x, Commands(command)))
  {
    hide HostInv, Exec, Agrees;
    ExecLog(x.sys, command);
  }

  lemma SendKeeps(x: Cross, id: Id, request: Sent)
    requires CrossInv(x)
    ensures CrossInv(CrossAfter(x, Sends(id, request)))
  {
    hide HostInv, Exec;
  }

  lemma CrossKeeps(x: Cross, step: CrossStep)
    requires CrossInv(x)
    ensures CrossInv(CrossAfter(x, step))
  {
    hide CrossInv, CrossAfter;
    match step
    case AtHost(h) => HostStepKeeps(x, h);
    case HostAnswers(id) => AnswerKeeps(x, id);
    case Sends(id, request) => SendKeeps(x, id, request);
    case RecordsSuccess(id, r, c) => RecordKeeps(x, id, r, c);
    case Commands(command) => CommandKeeps(x, command);
  }

  /** The empty system: fresh services, an empty store, nothing sent. */
  function CrossStart(dataSpaceId: Id, activationStream: Id): Cross {
    Cross(Start(dataSpaceId, activationStream), EMPTY_HOST, {}, map[])
  }

  lemma {:induction false} CrossRunKeeps(dataSpaceId: Id, activationStream: Id, steps: seq<CrossStep>)
    ensures CrossInv(CrossRun(CrossStart(dataSpaceId, activationStream), steps))
  {
    if steps == [] {
      hide CrossAfter;
    } else {
      hide CrossInv, CrossAfter;
      CrossRunKeeps(dataSpaceId, activationStream, steps[..|steps| - 1]);
      CrossKeeps(CrossRun(CrossStart(dataSpaceId, activationStream), steps[..|steps| - 1]), steps[|steps| - 1]);
    }
  }

  /** The step that completing an execution takes: a success is recorded from the accepted answer, anything else is
      reported, and when not even an unforeseen failure can be reported the execution's state is failed. */
  ghost function CompletionStep(x: Cross, executionId: Id, o: ClientOutcome, snapshot: Option<string>, freshId: Id, c: Caller): CrossStep
    requires executionId in x.sys.view.agents.executions
  {
    var caller := c.(key := c.key + FinishSuffix(o));
    var report := ReportStep(x.sys.view, executionId, FinishReport(o, snapshot, freshId), caller);
    if o.Succeeded? then RecordsSuccess(executionId, o.receipt, caller)
    else if o.Violation? && !Accepted(x.sys, report)
    then Commands(StepBy(caller, executionId, ExecutionStateChanged(FailedExecution, None), System, NoContext))
    else Commands(report)
  }

  // ---- what completing an execution leaves, in terms of the messages

  /** The answer that counts: the response to the POST, or that to the GET if the POST got none. */
  function AnswerOf(post: HttpReply, get: HttpReply): HttpReply {
    if post.Lost? then get else post
  }

  /** The receipt has ended, is for this very request, and has the fields of its status. */
  predicate Usable(request: Sent, r: Receipt) {
    && r.endpoint == "/v1/work-executions" && r.receiptId == request.payload.receiptId && r.key == request.payload.key
    && r.digest.payload == request.payload && r.candidateKey == request.candidate.key
    && (request.candidate.exact ==> r.requestedModel == request.candidate.modelSnapshot)
    && match r.status
       case InProgress => false
       case ReceiptSucceeded => r.actualModel.Some? && r.providerSessionId.Some? && r.usage.Some? && r.result.Some? && r.error.None?
       case _ => r.result.None? && r.error.Some?
  }

  /** The call ended with a receipt that is recorded as it is: usable, and with a valid result if it succeeded. */
  predicate Ended(request: Sent, post: HttpReply, get: HttpReply, valid: Option<Json> -> bool) {
    var answer := AnswerOf(post, get);
    answer.Answered? && Usable(request, answer.receipt) && (answer.receipt.status.ReceiptSucceeded? ==> valid(answer.receipt.result))
  }

  /** What is reported: the receipt itself; a receipt of unknown outcome when no answer came; or a failed one of its own. */
  predicate ReportedAs(report: ReceiptReport, request: Sent, post: HttpReply, get: HttpReply, valid: Option<Json> -> bool,
      snapshot: Option<string>, freshId: Id)
  {
    if post.Lost? && get.Lost? then
      report == ReceiptReport(request.payload.receiptId, TransportUnknown, snapshot, None, None, None, None, Some("ReceiptUnreachable"))
    else if Ended(request, post, get, valid) then
      var r := AnswerOf(post, get).receipt;
      && report.receiptId == r.receiptId && report.status == r.status && report.requestedModel == r.requestedModel
      && report.actualModel == r.actualModel && report.providerSessionId == r.providerSessionId
      && report.usage == r.usage && report.result == r.result && report.error == r.error
    else
      report == ReceiptReport(freshId, ReceiptFailed, snapshot, None, None, None, None, Some("UnexpectedDispatchFailure"))
  }

  /** The key of the report. */
  function ReportKey(key: string, request: Sent, post: HttpReply, get: HttpReply, valid: Option<Json> -> bool): string {
    key + if post.Lost? && get.Lost? then ":receipt-unreachable"
          else if Ended(request, post, get, valid) then ":receipt" else ":unexpected-dispatch-failure"
  }

  /** What becomes of the execution: it is paused for reconciliation exactly when no answer came or the host does not know
      the outcome, succeeded exactly for a valid success, and failed otherwise. Nothing else of it changes but the session. */
  predicate CompletedAs(before: Execution, after: Execution, request: Sent, post: HttpReply, get: HttpReply, valid: Option<Json> -> bool) {
    var ended := Ended(request, post, get, valid);
    var unknown := (post.Lost? && get.Lost?) || (ended && AnswerOf(post, get).receipt.status.TransportUnknown?);
    && after == before.(state := after.state, providerSessionId := after.providerSessionId, pauseReason := after.pauseReason)
    && (after.state.PausedExecution? <==> unknown)
    && (after.state.SucceededExecution? <==> ended && AnswerOf(post, get).receipt.status.ReceiptSucceeded?)
    && (after.state.PausedExecution? || after.state.SucceededExecution? || after.state.FailedExecution?)
    && after.pauseReason == (if unknown then Some("pilot_receipt_reconciliation_required") else None)
    && after.providerSessionId == (if ended then AnswerOf(post, get).receipt.providerSessionId else None)
  }

  lemma UsableIff(request: Sent, r: Receipt)
    ensures Usable(request, r) <==> !r.status.InProgress? && ReceiptConsistent(r) && AnswersRequest(WORK_ENDPOINT, request.payload, request.candidate, r)
  {
  }

  /** The report and its key, for each outcome of the call. */
  lemma OutcomeReports(request: Sent, post: HttpReply, get: HttpReply, valid: Option<Json> -> bool, o: ClientOutcome,
      snapshot: Option<string>, freshId: Id, key: string)
    requires WorkClassifies(request.payload, request.candidate, post, get, valid, o)
    ensures ReportedAs(FinishReport(o, snapshot, freshId), request, post, get, valid, snapshot, freshId)
    ensures key + FinishSuffix(o) == ReportKey(key, request, post, get, valid)
  {
    hide Usable, ReceiptConsistent, AnswersRequest;
    if AnswerOf(post, get).Answered? {
      UsableIff(request, AnswerOf(post, get).receipt);
    }
  }

  /** The report that completes a requested execution is accepted under an unused key. */
  lemma ReportAccepted(s: Sys, id: Id, o: ClientOutcome, snapshot: Option<string>, freshId: Id, c: Caller)
    requires Reachable(s) && id in s.view.agents.executions && s.view.agents.executions[id].state.Requested?
    requires !o.Unreachable? && !o.Violation? ==> ReceiptConsistent(o.receipt) && Final(o.receipt)
    requires c.key !in KeysOf(s.log) && id != s.view.activation.streamId
    ensures Accepted(s, ReportStep(s.view, id, FinishReport(o, snapshot, freshId), c))
  {
    hide Reachable, Accepted, KeysOf, AdmitsWork, AdmitsEffects, AdmitsRoutes, AdmitsActivation, NameRegistered, ValidAgentMessage, AssignmentFor;
    var step := ReportStep(s.view, id, FinishReport(o, snapshot, freshId), c);
    KeyUsedIff(s.log, step.key);
    AcceptedIff(s, step);
  }

  lemma ClassifiedReceipt(p: Payload, c: Candidate, post: HttpReply, get: HttpReply, valid: Option<Json> -> bool, o: ClientOutcome)
    requires WorkClassifies(p, c, post, get, valid, o)
    ensures !o.Unreachable? && !o.Violation? ==> ReceiptConsistent(o.receipt) && Final(o.receipt)
  {
    hide ReceiptConsistent, AnswersRequest;
  }

  /** What an accepted report makes of its execution. */
  lemma ReportMoves(s: Sys, id: Id, report: ReceiptReport, c: Caller)
    requires Reachable(s) && id in s.view.agents.executions && Accepted(s, ReportStep(s.view, id, report, c))
    ensures var x, t := s.view.agents.executions[id], Exec(s, ReportStep(s.view, id, report, c));
            && id in t.view.agents.executions && t.log == s.log + [StoredFor(s, ReportStep(s.view, id, report, c))]
            && t.view.agents.executions[id] ==
                 x.(state := if report.status.ReceiptSucceeded? then SucceededExecution else if report.status.ReceiptFailed? then FailedExecution else PausedExecution,
                    providerSessionId := report.providerSessionId,
                    pauseReason := if report.status.TransportUnknown? then Some("pilot_receipt_reconciliation_required") else None)
  {
    hide Reachable, Accepted, Exec, Moves, AdmitsAgents, AssignmentFor;
    var step := ReportStep(s.view, id, report, c);
    AcceptedMoves(s, step);
    LogGrows(s, step, Exec(s, step));
    AgentMove(s, step, Exec(s, step));
  }

  /** Completing a requested execution under an unused key records exactly one event, the report of its outcome, and
      leaves the execution as the messages say. */
  lemma CompletedExecution(x: Cross, id: Id, post: HttpReply, get: HttpReply, valid: Option<Json> -> bool, o: ClientOutcome,
      snapshot: Option<string>, freshId: Id, c: Caller) returns (d: StoredEvent)
    requires Reachable(x.sys) && id in x.sys.view.agents.executions && x.sys.view.agents.executions[id].state.Requested? && id in x.sent
    requires OnNetwork(x.replies, post) && OnNetwork(x.replies, get)
    requires WorkClassifies(x.sent[id].payload, x.sent[id].candidate, post, get, valid, o)
    requires ReportKey(c.key, x.sent[id], post, get, valid) !in KeysOf(x.sys.log) && id != x.sys.view.activation.streamId
    ensures var t, request := CrossAfter(x, CompletionStep(x, id, o, snapshot, freshId, c)).sys, x.sent[id];
            && t.log == x.sys.log + [d] && d.event.streamId == id && d.event.body.ReceiptRecorded?
            && d.event.idempotencyKey == ReportKey(c.key, request, post, get, valid)
            && ReportedAs(d.event.body.record.report, request, post, get, valid, snapshot, freshId)
            && id in t.view.agents.executions
            && CompletedAs(x.sys.view.agents.executions[id], t.view.agents.executions[id], request, post, get, valid)
  {
    hide Reachable, Accepted, Exec, KeysOf, ReceiptConsistent, AnswersRequest, CrossAfter, CompletionStep, AssignmentFor, Usable, ReportKey, WorkClassifies,
      FinishReport, FinishSuffix;
    var request, caller := x.sent[id], c.(key := c.key + FinishSuffix(o));
    var report := FinishReport(o, snapshot, freshId);
    OutcomeReports(request, post, get, valid, o, snapshot, freshId, c.key);
    ClassifiedReceipt(request.payload, request.candidate, post, get, valid, o);
    ReportAccepted(x.sys, id, o, snapshot, freshId, caller);
    CompletionIsStep(x, id, post, get, valid, o, snapshot, freshId, c);
    ReportMoves(x.sys, id, report, caller);
    d := StoredFor(x.sys, ReportStep(x.sys.view, id, report, caller));
    StoredReport(x.sys, id, report, caller);
    CompletionMeans(x.sys.view.agents.executions[id], report, request, post, get, valid, snapshot, freshId);
  }

  lemma StoredReport(s: Sys, id: Id, report: ReceiptReport, c: Caller)
    requires id in s.view.agents.executions
    ensures var e := StoredFor(s, ReportStep(s.view, id, report, c)).event;
            e.streamId == id && e.idempotencyKey == c.key && e.body.ReceiptRecorded? && e.body.record.report == report
  {
    hide AssignmentFor;
  }

  lemma CompletionMeans(x: Execution, report: ReceiptReport, request: Sent, post: HttpReply, get: HttpReply, valid: Option<Json> -> bool,
      snapshot: Option<string>, freshId: Id)
    requires ReportedAs(report, request, post, get, valid, snapshot, freshId)
    ensures CompletedAs(x, x.(state := if report.status.ReceiptSucceeded? then SucceededExecution else if report.status.ReceiptFailed? then FailedExecution else PausedExecution,
                              providerSessionId := report.providerSessionId,
                              pauseReason := if report.status.TransportUnknown? then Some("pilot_receipt_reconciliation_required") else None),
                        request, post, get, valid)
  {
  }

  /** The answer was put on the network by the host. */
  predicate OnNetwork(replies: set<Receipt>, answer: HttpReply) {
    answer.Answered? ==> answer.receipt in replies
  }

  /** The execution is requested, and neither the key nor the stream of its report is taken. */
  predicate CanComplete(s: Sys, id: Id, key: string) {
    && id in s.view.agents.executions && s.view.agents.executions[id].state.Requested?
    && key !in KeysOf(s.log) && id != s.view.activation.streamId
  }

  /** One event was recorded, the report of the outcome, and the execution is as the messages say. */
  ghost predicate Completed(s: Sys, t: Sys, id: Id, request: Sent, post: HttpReply, get: HttpReply, valid: Option<Json> -> bool,
      snapshot: Option<string>, freshId: Id, c: Caller)
  {
    && id in s.view.agents.executions && id in t.view.agents.executions
    && CompletedAs(s.view.agents.executions[id], t.view.agents.executions[id], request, post, get, valid)
    && |t.log| == |s.log| + 1 && t.log[..|s.log|] == s.log
    && var e := t.log[|s.log|].event;
       && e.streamId == id && e.idempotencyKey == ReportKey(c.key, request, post, get, valid) && e.body.ReceiptRecorded?
       && ReportedAs(e.body.record.report, request, post, get, valid, snapshot, freshId)
  }

  /** The call of an execution and what is recorded of it: one step of the whole system. */
  method CompleteExecution(kernel: Kernel, ghost x: Cross, executionId: Id, post: HttpReply, get: HttpReply, request: Sent,
      valid: Option<Json> -> bool, snapshot: Option<string>, freshId: Id, c: Caller)
    returns (o: ClientOutcome, recorded: bool)
    requires kernel.Valid() && kernel.State() == x.sys && executionId in x.sent && x.sent[executionId] == request
    requires OnNetwork(x.replies, post) && OnNetwork(x.replies, get)
    modifies kernel, kernel.ledger
    ensures kernel.Valid() && WorkClassifies(request.payload, request.candidate, post, get, valid, o)
    ensures kernel.State() ==
              if executionId in x.sys.view.agents.executions
              then CrossAfter(x, CompletionStep(x, executionId, o, snapshot, freshId, c)).sys
              else x.sys
    ensures CanComplete(x.sys, executionId, ReportKey(c.key, request, post, get, valid)) ==>
              Completed(x.sys, kernel.State(), executionId, request, post, get, valid, snapshot, freshId, c)
  {
    hide Accepted, Exec, ReceiptFor, ReceiptConsistent, AnswersRequest, Reachable, Indexed, CompletedAs, ReportedAs, ReportKey, KeysOf, CrossAfter, CompletionStep;
    o := ExecuteWork(request.payload, request.candidate, post, get, valid);
    recorded := FinishExecution(kernel, executionId, o, snapshot, freshId, c);
    if executionId in x.sys.view.agents.executions {
      CompletionIsStep(x, executionId, post, get, valid, o, snapshot, freshId, c);
      if CanComplete(x.sys, executionId, ReportKey(c.key, request, post, get, valid)) {
        var d := CompletedExecution(x, executionId, post, get, valid, o, snapshot, freshId, c);
      }
    }
  }

  /** The state that each outcome leads to is that of its step: accepted answers are among the host's, and only a
      success is reported as one. */
  lemma CompletionIsStep(x: Cross, executionId: Id, post: HttpReply, get: HttpReply, valid: Option<Json> -> bool, o: ClientOutcome,
      snapshot: Option<string>, freshId: Id, c: Caller)
    requires executionId in x.sent && executionId in x.sys.view.agents.executions
    requires OnNetwork(x.replies, post) && OnNetwork(x.replies, get)
    requires WorkClassifies(x.sent[executionId].payload, x.sent[executionId].candidate, post, get, valid, o)
    ensures var caller := c.(key := c.key + FinishSuffix(o));
            var report := ReportStep(x.sys.view, executionId, FinishReport(o, snapshot, freshId), caller);
            CrossAfter(x, CompletionStep(x, executionId, o, snapshot, freshId, c)).sys ==
              if o.Violation? && !Accepted(x.sys, report)
              then Exec(x.sys, StepBy(caller, executionId, ExecutionStateChanged(FailedExecution, None), System, NoContext))
              else Exec(x.sys, report)
  {
    hide Accepted, Exec;
  }

  /** At every point of every run, over lost and delayed answers, host crashes and retries: each success in the
      ledger is a succeeded receipt in the host's store, with the id, key, request and result that were recorded. */
  lemma RecordedSuccessIsHostSuccess(dataSpaceId: Id, activationStream: Id, steps: seq<CrossStep>, d: StoredEvent)
    requires d in CrossRun(CrossStart(dataSpaceId, activationStream), steps).sys.log && IsSuccess(d.event.body)
    ensures var x := CrossRun(CrossStart(dataSpaceId, activationStream), steps);
            Agrees(x.host.rows, x.sent, d.event.body.record)
  {
    hide CrossRun, HostInv, Agrees, IsSuccess;
    CrossRunKeeps(dataSpaceId, activationStream, steps);
  }
}
