/** The crash-safe receipt store of the PilotHost, the endpoint that uses it, and the protocol
    of requests, provider calls, crashes, restarts and retries around it. */
module Receipts {
  import opened Models

  /** A request as it was posted. */
  datatype Payload = Payload(receiptId: Id, key: string, candidateKey: string, requestedModel: Option<string>, content: Json)

  /** SHA-256 of the canonical request, which determines the request. */
  datatype RequestDigest = RequestDigest(payload: Payload)

  /** A row of the receipt table; its body repeats the columns. */
  datatype Receipt = Receipt(
    receiptId: Id, endpoint: string, key: string, digest: RequestDigest, status: ReceiptStatus, candidateKey: string,
    requestedModel: Option<string>, actualModel: Option<string>, providerSessionId: Option<string>,
    usage: Option<Json>, result: Option<Json>, error: Option<string>)

  type Rows = map<Id, Receipt>

  const RESTARTED: string := "TransportUnknown"

  /** What a provider call produced. */
  datatype ProviderOutcome =
    | Produced(result: Option<Json>, model: Option<string>, usage: Option<Json>, session: Option<string>)
    | TimedOut
    | InvocationError(code: string, failedModel: Option<string>, failedSession: Option<string>, failedUsage: Option<Json>)
    | LaunchFailed
    | InternalError

  predicate Final(r: Receipt) {
    !r.status.InProgress?
  }

  // ---- the table

  /** The columns of a row belong together, and no two rows share an idempotency key. */
  ghost predicate Table(rows: Rows) {
    && (forall k :: k in rows ==> rows[k].receiptId == k && rows[k].digest.payload.receiptId == k && rows[k].digest.payload.key == rows[k].key)
    && (forall j, k :: j in rows && k in rows && j != k ==> rows[j].key != rows[k].key)
  }

  function Fresh(endpoint: string, p: Payload): Receipt {
    Receipt(p.receiptId, endpoint, p.key, RequestDigest(p), InProgress, p.candidateKey, p.requestedModel, None, None, None, None, None)
  }

  /** The row lookup by receipt id or idempotency key. */
  function Matches(rows: Rows, p: Payload): set<Id> {
    set k | k in rows && (rows[k].receiptId == p.receiptId || rows[k].key == p.key)
  }

  /** The same request was accepted before. */
  predicate SameRequest(r: Receipt, endpoint: string, p: Payload) {
    r.endpoint == endpoint && r.receiptId == p.receiptId && r.digest == RequestDigest(p)
  }

  /** What a begin answers: the earlier receipt of the same request, a new one, or a conflict. */
  datatype BeginAnswer = Created(created: Receipt) | Existing(existing: Receipt) | Conflict

  function BeginOf(rows: Rows, endpoint: string, p: Payload): BeginAnswer {
    if p.receiptId in rows && SameRequest(rows[p.receiptId], endpoint, p) then Existing(rows[p.receiptId])
    else if Matches(rows, p) == {} then Created(Fresh(endpoint, p))
    else Conflict
  }

  /** When the lookup matches two rows, either one leads to the same decision. */
  lemma AnyMatchDecidesAlike(rows: Rows, endpoint: string, p: Payload, k: Id)
    requires Table(rows) && k in Matches(rows, p)
    ensures BeginOf(rows, endpoint, p) == if SameRequest(rows[k], endpoint, p) then Existing(rows[k]) else Conflict
  {
    if k != p.receiptId {
      assert p.receiptId in rows ==> rows[p.receiptId].key != rows[k].key;
    }
  }

  lemma NoMatch(rows: Rows, p: Payload)
    requires Matches(rows, p) == {} && Table(rows)
    ensures p.receiptId !in rows && forall k :: k in rows ==> rows[k].key != p.key
  {
    forall k | k in rows ensures k != p.receiptId && rows[k].key != p.key { assert k !in Matches(rows, p); }
  }

  function Ended(r: Receipt, o: ProviderOutcome): Receipt {
    match o
    case Produced(result, model, usage, session) =>
      r.(status := ReceiptSucceeded, actualModel := model, providerSessionId := session, usage := usage, result := result, error := None)
    case TimedOut => FailedWith(r, "ProviderTimeout")
    case InvocationError(code, model, session, usage) =>
      r.(status := ReceiptFailed, actualModel := model, providerSessionId := session, usage := usage, result := None, error := Some(code))
    case LaunchFailed => FailedWith(r, "ProviderLaunchFailed")
    case InternalError => FailedWith(r, "PilotHostInternalError")
  }

  function FailedWith(r: Receipt, code: string): Receipt {
    r.(status := ReceiptFailed, actualModel := None, providerSessionId := None, usage := None, result := None, error := Some(code))
  }

  /** The row after its call: what the provider produced, or the error that the call ended with, and the same request. */
  predicate EndsAs(before: Receipt, o: ProviderOutcome, after: Receipt) {
    && after.receiptId == before.receiptId && after.endpoint == before.endpoint && after.key == before.key && after.digest == before.digest
    && after.candidateKey == before.candidateKey && after.requestedModel == before.requestedModel
    && (after.status == if o.Produced? then ReceiptSucceeded else ReceiptFailed)
    && (after.error == match o
                       case Produced(_, _, _, _) => None
                       case TimedOut => Some("ProviderTimeout")
                       case InvocationError(code, _, _, _) => Some(code)
                       case LaunchFailed => Some("ProviderLaunchFailed")
                       case InternalError => Some("PilotHostInternalError"))
    && (o.Produced? ==> after.result == o.result && after.actualModel == o.model && after.usage == o.usage && after.providerSessionId == o.session)
    && (o.InvocationError? ==>
          after.result == None && after.actualModel == o.failedModel && after.usage == o.failedUsage && after.providerSessionId == o.failedSession)
    && (!o.Produced? && !o.InvocationError? ==>
          after.result == None && after.actualModel == None && after.usage == None && after.providerSessionId == None)
  }

  /** Opening the store after a crash: outcomes that were not recorded are unknown. */
  function Recovered(rows: Rows): Rows {
    map k | k in rows :: RecoveredRow(rows[k])
  }

  function RecoveredRow(r: Receipt): Receipt {
    if r.status.InProgress? then r.(status := TransportUnknown, error := Some(RESTARTED)) else r
  }

  lemma RecoveredTable(rows: Rows)
    requires Table(rows)
    ensures Table(Recovered(rows)) && forall k :: k in rows ==> Final(Recovered(rows)[k])
  {
  }

  class ReceiptStore {
    var rows: Rows

    ghost predicate Valid()
      reads this
    {
      Table(rows)
    }

    /** Opens the store over the rows that an earlier process left. */
    constructor (durable: Rows)
      requires Table(durable)
      ensures Valid() && rows == Recovered(durable)
      ensures rows.Keys == durable.Keys
      ensures forall k :: k in durable ==>
                rows[k] == if durable[k].status.InProgress?
                           then durable[k].(status := TransportUnknown, error := Some("TransportUnknown")) else durable[k]
    {
      rows := durable;
      new;
      Recover(durable);
    }

    /** Marks every row in progress as unknown. */
    method Recover(ghost durable: Rows)
      requires Table(durable) && rows == durable
      modifies this
      ensures Valid() && rows == Recovered(durable)
    {
      hide Table;
      var recovered, pending := rows, set k | k in rows && rows[k].status.InProgress?;
      while pending != {}
        invariant pending <= durable.Keys
        invariant recovered == map k | k in durable :: if k in pending then durable[k] else RecoveredRow(durable[k])
        decreases |pending|
      {
        var k :| k in pending;
        recovered := recovered[k := RecoveredRow(recovered[k])];
        pending := pending - {k};
      }
      rows := recovered;
      assert rows == Recovered(durable);
      RecoveredTable(durable);
    }

    /** Looks up any row with this receipt id or key; without one, inserts a new row in progress. */
    method Begin(endpoint: string, p: Payload) returns (r: BeginAnswer)
      requires Valid()
      modifies this
      ensures Valid()
      ensures r == BeginOf(old(rows), endpoint, p)
      ensures r.Created? <==> forall k :: k in old(rows) ==> old(rows)[k].receiptId != p.receiptId && old(rows)[k].key != p.key
      ensures r.Created? ==> r.created == Receipt(p.receiptId, endpoint, p.key, RequestDigest(p), InProgress, p.candidateKey, p.requestedModel,
                                                  None, None, None, None, None)
      ensures r.Existing? <==> p.receiptId in old(rows) && old(rows)[p.receiptId].endpoint == endpoint
                               && old(rows)[p.receiptId].digest.payload == p
      ensures r.Existing? ==> r.existing == old(rows)[p.receiptId]
      ensures rows == if r.Created? then old(rows)[p.receiptId := r.created] else old(rows)
    {
      var matches := Matches(rows, p);
      if matches != {} {
        var k :| k in matches;
        AnyMatchDecidesAlike(rows, endpoint, p, k);
        var existing := rows[k];
        if existing.endpoint != endpoint || existing.receiptId != p.receiptId || existing.digest != RequestDigest(p) {
          return Conflict;
        }
        return Existing(existing);
      }
      NoMatch(rows, p);
      var receipt := Fresh(endpoint, p);
      rows := rows[p.receiptId := receipt];
      return Created(receipt);
    }

    /** Completes a receipt in progress; any other is refused. */
    method Finish(receiptId: Id, o: ProviderOutcome) returns (r: Result<Receipt>)
      requires Valid()
      modifies this
      ensures Valid()
      ensures r.Ok? <==> receiptId in old(rows) && old(rows)[receiptId].status.InProgress?
      ensures r.Ok? ==> r.value == Ended(old(rows)[receiptId], o) && rows == old(rows)[receiptId := r.value]
      ensures r.Ok? ==> EndsAs(old(rows)[receiptId], o, r.value)
      ensures r.Err? ==> rows == old(rows)
    {
      if receiptId !in rows || !rows[receiptId].status.InProgress? {
        return Err(InvariantViolation);
      }
      var receipt := Ended(rows[receiptId], o);
      rows := rows[receiptId := receipt];
      return Ok(receipt);
    }

    method Get(receiptId: Id) returns (r: Option<Receipt>)
      ensures r == if receiptId in rows then Some(rows[receiptId]) else None
    {
      return if receiptId in rows then Some(rows[receiptId]) else None;
    }
  }

  // ---- the endpoint

  /** The host executes a request at most once; a repeated request is answered from the store. */
  class PilotHost {
    const receipts: ReceiptStore
    /** Provider calls made, oldest first. */
    var calls: seq<Payload>

    constructor (receipts: ReceiptStore)
      ensures this.receipts == receipts && calls == []
    {
      this.receipts, calls := receipts, [];
    }

    /** Begins, calls the provider only for a new receipt, and records the outcome, whatever it is. `o` is what the
        provider would produce. */
    method Execute(endpoint: string, p: Payload, o: ProviderOutcome) returns (r: Option<Receipt>)
      requires receipts.Valid()
      modifies receipts, `calls
      ensures receipts.Valid()
      ensures match BeginOf(old(receipts.rows), endpoint, p)
              case Conflict => r == None && receipts.rows == old(receipts.rows) && calls == old(calls)
              case Existing(e) => r == Some(e) && receipts.rows == old(receipts.rows) && calls == old(calls)
              case Created(e) => r == Some(Ended(e, o)) && receipts.rows == old(receipts.rows)[p.receiptId := Ended(e, o)]
                                 && calls == old(calls) + [p]
      ensures r.Some? ==> r.value.receiptId == p.receiptId && r.value.digest.payload == p && r.value.endpoint == endpoint
      ensures calls != old(calls) ==>
                r.Some? && EndsAs(Receipt(p.receiptId, endpoint, p.key, RequestDigest(p), InProgress, p.candidateKey, p.requestedModel,
                                          None, None, None, None, None), o, r.value)
    {
      var begun := receipts.Begin(endpoint, p);
      match begun
      case Conflict => return None;
      case Existing(e) => return Some(e);
      case Created(_) =>
        calls := calls + [p];
        var finished := receipts.Finish(p.receiptId, o);
        return Some(finished.value);
    }
  }

  // ---- the protocol

  /** A request between its begin and its finish. */
  datatype Phase = ToInvoke(payload: Payload) | Invoked(payload: Payload, outcome: ProviderOutcome)

  /** The durable rows, the requests that the running process works on, and all provider calls ever made. */
  datatype Host = Host(rows: Rows, working: map<Id, Phase>, calls: seq<Payload>)

  datatype HostStep =
    | Posted(endpoint: string, request: Payload)
    | ProviderCalled(receiptId: Id, outcome: ProviderOutcome)
    | Finished(receiptId: Id)
    | Restarted

  /** One step; a step that is not possible now changes nothing. */
  function HostAfter(h: Host, step: HostStep): Host {
    match step
    case Posted(endpoint, p) =>
      (match BeginOf(h.rows, endpoint, p)
       case Created(r) => h.(rows := h.rows[p.receiptId := r], working := h.working[p.receiptId := ToInvoke(p)])
       case _ => h)
    case ProviderCalled(id, o) =>
      if id in h.working && h.working[id].ToInvoke?
      then h.(working := h.working[id := Invoked(h.working[id].payload, o)], calls := h.calls + [h.working[id].payload])
      else h
    case Finished(id) =>
      if id in h.working && h.working[id].Invoked? && id in h.rows && h.rows[id].status.InProgress?
      then h.(rows := h.rows[id := Ended(h.rows[id], h.working[id].outcome)], working := h.working - {id})
      else h
    case Restarted => h.(rows := Recovered(h.rows), working := map[])
  }

  function HostRun(h: Host, steps: seq<HostStep>): Host {
    if steps == [] then h else HostAfter(HostRun(h, steps[..|steps| - 1]), steps[|steps| - 1])
  }

  const EMPTY_HOST := Host(map[], map[], [])

  /** Work in progress has its row in progress, every call belongs to a row, and calls are not repeated. */
  ghost predicate HostInv(h: Host) {
    && Table(h.rows) && WorkingInv(h) && CallsInv(h)
  }

  ghost predicate WorkingInv(h: Host) {
    forall id :: id in h.working ==>
      id in h.rows && h.rows[id].status.InProgress? && h.rows[id].digest == RequestDigest(h.working[id].payload)
  }

  ghost predicate CallsInv(h: Host) {
    && (forall i :: 0 <= i < |h.calls| ==> h.calls[i].receiptId in h.rows && h.rows[h.calls[i].receiptId].digest == RequestDigest(h.calls[i]))
    && (forall i, j :: 0 <= i < j < |h.calls| ==> h.calls[i].receiptId != h.calls[j].receiptId)
    && (forall i :: 0 <= i < |h.calls| && h.calls[i].receiptId in h.working ==> h.working[h.calls[i].receiptId].Invoked?)
  }

  /** No row disappears or changes its request, and a final row never changes at all. */
  ghost predicate RowsKept(rows: Rows, later: Rows) {
    forall k :: k in rows ==>
      && k in later && later[k].digest == rows[k].digest && later[k].endpoint == rows[k].endpoint
      && (Final(rows[k]) ==> later[k] == rows[k])
  }

  lemma TableInsert(rows: Rows, endpoint: string, p: Payload)
    requires Table(rows) && Matches(rows, p) == {}
    ensures Table(rows[p.receiptId := Fresh(endpoint, p)])
  {
    NoMatch(rows, p);
  }

  lemma BeginKeeps(h: Host, endpoint: string, p: Payload)
    requires HostInv(h)
    ensures HostInv(HostAfter(h, Posted(endpoint, p))) && RowsKept(h.rows, HostAfter(h, Posted(endpoint, p)).rows)
  {
    hide Table;
    if BeginOf(h.rows, endpoint, p).Created? {
      NoMatch(h.rows, p);
      TableInsert(h.rows, endpoint, p);
    }
  }

  lemma WorkingMatchesId(h: Host, id: Id)
    requires HostInv(h) && id in h.working
    ensures h.working[id].payload.receiptId == id
  {
  }

  lemma CallKeeps(h: Host, id: Id, o: ProviderOutcome)
    requires HostInv(h)
    ensures HostInv(HostAfter(h, ProviderCalled(id, o))) && RowsKept(h.rows, HostAfter(h, ProviderCalled(id, o)).rows)
  {
    hide Table;
    if id in h.working {
      WorkingMatchesId(h, id);
    }
  }

  /** An outcome completes the row without touching its identity. */
  lemma EndedKeepsIdentity(r: Receipt, o: ProviderOutcome)
    ensures var e := Ended(r, o);
            Final(e) && e.receiptId == r.receiptId && e.key == r.key && e.digest == r.digest && e.endpoint == r.endpoint
            && e.candidateKey == r.candidateKey && e.requestedModel == r.requestedModel
  {
  }

  lemma TableReplace(rows: Rows, id: Id, r: Receipt)
    requires Table(rows) && id in rows && r.receiptId == rows[id].receiptId && r.key == rows[id].key && r.digest == rows[id].digest
    ensures Table(rows[id := r])
  {
  }

  lemma FinishKeeps(h: Host, id: Id)
    requires HostInv(h)
    ensures HostInv(HostAfter(h, Finished(id))) && RowsKept(h.rows, HostAfter(h, Finished(id)).rows)
  {
    hide Table, Ended;
    if id in h.working && h.working[id].Invoked? && id in h.rows && h.rows[id].status.InProgress? {
      EndedKeepsIdentity(h.rows[id], h.working[id].outcome);
      TableReplace(h.rows, id, Ended(h.rows[id], h.working[id].outcome));
    }
  }

  lemma RestartKeeps(h: Host)
    requires HostInv(h)
    ensures HostInv(HostAfter(h, Restarted)) && RowsKept(h.rows, HostAfter(h, Restarted).rows)
  {
    hide Table;
    RecoveredTable(h.rows);
  }

  lemma HostKeeps(h: Host, step: HostStep)
    requires HostInv(h)
    ensures HostInv(HostAfter(h, step)) && RowsKept(h.rows, HostAfter(h, step).rows)
  {
    hide HostInv, RowsKept, HostAfter;
    match step
    case Posted(endpoint, p) => BeginKeeps(h, endpoint, p);
    case ProviderCalled(id, o) => CallKeeps(h, id, o);
    case Finished(id) => FinishKeeps(h, id);
    case Restarted => RestartKeeps(h);
  }

  lemma {:induction false} HostRunKeeps(h: Host, steps: seq<HostStep>)
    requires HostInv(h)
    ensures HostInv(HostRun(h, steps)) && RowsKept(h.rows, HostRun(h, steps).rows)
  {
    hide HostAfter, HostInv;
    if steps != [] {
      HostRunKeeps(h, steps[..|steps| - 1]);
      HostKeeps(HostRun(h, steps[..|steps| - 1]), steps[|steps| - 1]);
    }
  }

  /** Over any interleaving of posts, provider calls, completions, crashes and retries, the provider is called at
      most once per receipt id and at most once per idempotency key. */
  lemma AtMostOneCall(steps: seq<HostStep>, i: nat, j: nat)
    requires i < j < |HostRun(EMPTY_HOST, steps).calls|
    ensures HostRun(EMPTY_HOST, steps).calls[i].receiptId != HostRun(EMPTY_HOST, steps).calls[j].receiptId
    ensures HostRun(EMPTY_HOST, steps).calls[i].key != HostRun(EMPTY_HOST, steps).calls[j].key
  {
    HostRunKeeps(EMPTY_HOST, steps);
    var h := HostRun(EMPTY_HOST, steps);
    assert h.rows[h.calls[i].receiptId].key == h.calls[i].key && h.rows[h.calls[j].receiptId].key == h.calls[j].key;
  }

  lemma HostRunConcat(h: Host, steps: seq<HostStep>, more: seq<HostStep>)
    ensures HostRun(h, steps + more) == HostRun(HostRun(h, steps), more)
  {
    hide HostAfter;
    if more == [] {
      assert steps + more == steps;
    } else {
      assert (steps + more)[..|steps + more| - 1] == steps + more[..|more| - 1];
      HostRunConcat(h, steps, more[..|more| - 1]);
    }
  }

  /** A succeeded, failed or unknown receipt never changes again, whatever happens later. */
  lemma FinalReceiptsStay(steps: seq<HostStep>, more: seq<HostStep>, id: Id)
    requires id in HostRun(EMPTY_HOST, steps).rows && Final(HostRun(EMPTY_HOST, steps).rows[id])
    ensures id in HostRun(EMPTY_HOST, steps + more).rows
    ensures HostRun(EMPTY_HOST, steps + more).rows[id] == HostRun(EMPTY_HOST, steps).rows[id]
  {
    hide HostRun;
    HostRunKeeps(EMPTY_HOST, steps);
    HostRunKeeps(HostRun(EMPTY_HOST, steps), more);
    HostRunConcat(EMPTY_HOST, steps, more);
  }

  /** The endpoint's straight run of a new request is the protocol's post, provider call and completion. */
  lemma ExecuteIsThreeSteps(h: Host, endpoint: string, p: Payload, o: ProviderOutcome)
    requires HostInv(h) && BeginOf(h.rows, endpoint, p).Created?
    ensures HostRun(h, [Posted(endpoint, p), ProviderCalled(p.receiptId, o), Finished(p.receiptId)])
            == h.(rows := h.rows[p.receiptId := Ended(Fresh(endpoint, p), o)], calls := h.calls + [p])
  {
    hide Ended, Matches, Table;
    NoMatch(h.rows, p);
    var posted := HostAfter(h, Posted(endpoint, p));
    var called := HostAfter(posted, ProviderCalled(p.receiptId, o));
    var steps := [Posted(endpoint, p), ProviderCalled(p.receiptId, o), Finished(p.receiptId)];
    assert steps[..2] == [Posted(endpoint, p), ProviderCalled(p.receiptId, o)] && steps[..2][..1] == [Posted(endpoint, p)];
    assert HostRun(h, steps[..2][..1]) == posted by { assert steps[..2][..1][..0] == []; }
    assert HostRun(h, steps[..2]) == called;
    assert called.working - {p.receiptId} == h.working;
  }

  // ---- where a row comes from

  /** The host before the `i`-th step of a run. */
  function HostAt(steps: seq<HostStep>, i: nat): Host
    requires i <= |steps|
  {
    HostRun(EMPTY_HOST, steps[..i])
  }

  /** The step inserted the row for a request that matched none. */
  predicate BegunBy(steps: seq<HostStep>, i: nat, id: Id, row: Receipt)
    requires i < |steps|
  {
    && steps[i].Posted? && steps[i].request.receiptId == id
    && (forall k :: k in HostAt(steps, i).rows ==> HostAt(steps, i).rows[k].receiptId != id && HostAt(steps, i).rows[k].key != steps[i].request.key)
    && row.receiptId == id && row.endpoint == steps[i].endpoint && row.key == steps[i].request.key && row.digest.payload == steps[i].request
    && row.candidateKey == steps[i].request.candidateKey && row.requestedModel == steps[i].request.requestedModel
  }

  /** The step recorded the outcome of a call that the host made for the request in progress. */
  predicate EndedBy(steps: seq<HostStep>, i: nat, id: Id, row: Receipt)
    requires i < |steps|
  {
    var h := HostAt(steps, i);
    && steps[i] == Finished(id) && id in h.rows && h.rows[id].status.InProgress?
    && id in h.working && h.working[id].Invoked? && h.working[id].payload == h.rows[id].digest.payload && h.working[id].payload in h.calls
    && EndsAs(h.rows[id], h.working[id].outcome, row)
  }

  /** The step was a restart that met the row in progress. */
  predicate MetBy(steps: seq<HostStep>, i: nat, id: Id)
    requires i < |steps|
  {
    steps[i].Restarted? && id in HostAt(steps, i).rows && HostAt(steps, i).rows[id].status.InProgress?
  }

  /** A request whose call was made is among the calls. */
  lemma {:induction false} InvokedWasCalled(steps: seq<HostStep>, id: Id)
    ensures var h := HostRun(EMPTY_HOST, steps); id in h.working && h.working[id].Invoked? ==> h.working[id].payload in h.calls
  {
    hide Ended, BeginOf, Recovered;
    if steps != [] {
      InvokedWasCalled(steps[..|steps| - 1], id);
    }
  }

  lemma BeginsAs(rows: Rows, endpoint: string, p: Payload)
    requires Table(rows) && BeginOf(rows, endpoint, p).Created?
    ensures BeginOf(rows, endpoint, p).created ==
              Receipt(p.receiptId, endpoint, p.key, RequestDigest(p), InProgress, p.candidateKey, p.requestedModel, None, None, None, None, None)
    ensures p.receiptId !in rows && forall k :: k in rows ==> rows[k].receiptId != p.receiptId && rows[k].key != p.key
  {
    NoMatch(rows, p);
  }

  /** What one step does to the row: nothing, or it inserts, completes or recovers it. */
  lemma RowStep(steps: seq<HostStep>, id: Id)
    requires steps != [] && id in HostRun(EMPTY_HOST, steps).rows
    ensures var n := |steps| - 1;
            var h, row := HostAt(steps, n), HostRun(EMPTY_HOST, steps).rows[id];
            || (id in h.rows && row == h.rows[id] && !MetBy(steps, n, id))
            || (id !in h.rows && row.status.InProgress? && row.error.None? && row.result.None? && BegunBy(steps, n, id, row))
            || (EndedBy(steps, n, id, row) && !MetBy(steps, n, id))
            || (MetBy(steps, n, id) && row == h.rows[id].(status := TransportUnknown, error := Some("TransportUnknown")))
  {
    hide HostInv, Table, HostRun, HostAfter, EndsAs;
    var n, last := |steps| - 1, steps[|steps| - 1];
    var h := HostAt(steps, n);
    EmptyHostInv();
    HostRunKeeps(EMPTY_HOST, steps[..n]);
    InvokedWasCalled(steps[..n], id);
    RunStep(steps);
    InvParts(h);
    match last
    case Posted(endpoint, p) => PostedRow(h, endpoint, p, id);
    case ProviderCalled(k, o) => CalledRow(h, k, o);
    case Finished(k) => FinishedRow(h, k, id);
    case Restarted => RestartedRow(h, id);
  }

  lemma EmptyHostInv()
    ensures HostInv(EMPTY_HOST)
  {
  }

  lemma PostedRow(h: Host, endpoint: string, p: Payload, id: Id)
    requires Table(h.rows) && id in HostAfter(h, Posted(endpoint, p)).rows
    ensures var row := HostAfter(h, Posted(endpoint, p)).rows[id];
            || (id in h.rows && row == h.rows[id])
            || (&& id !in h.rows && id == p.receiptId && (forall k :: k in h.rows ==> h.rows[k].receiptId != id && h.rows[k].key != p.key)
                && row == Receipt(id, endpoint, p.key, RequestDigest(p), InProgress, p.candidateKey, p.requestedModel, None, None, None, None, None))
  {
    hide Table, BeginOf;
    if BeginOf(h.rows, endpoint, p).Created? {
      BeginsAs(h.rows, endpoint, p);
    }
  }

  lemma CalledRow(h: Host, k: Id, o: ProviderOutcome)
    ensures HostAfter(h, ProviderCalled(k, o)).rows == h.rows
  {
  }

  lemma FinishedRow(h: Host, k: Id, id: Id)
    requires id in HostAfter(h, Finished(k)).rows
    ensures var row := HostAfter(h, Finished(k)).rows[id];
            && id in h.rows
            && (|| row == h.rows[id]
                || (&& k == id && h.rows[id].status.InProgress? && id in h.working && h.working[id].Invoked?
                    && EndsAs(h.rows[id], h.working[id].outcome, row)))
  {
    hide Ended, EndsAs;
    if k in h.working && h.working[k].Invoked? && k in h.rows {
      EndedEnds(h.rows[k], h.working[k].outcome);
    }
  }

  lemma RestartedRow(h: Host, id: Id)
    requires id in HostAfter(h, Restarted).rows
    ensures id in h.rows
    ensures HostAfter(h, Restarted).rows[id] ==
              if h.rows[id].status.InProgress? then h.rows[id].(status := TransportUnknown, error := Some("TransportUnknown")) else h.rows[id]
  {
  }

  lemma RunStep(steps: seq<HostStep>)
    requires steps != []
    ensures HostRun(EMPTY_HOST, steps) == HostAfter(HostAt(steps, |steps| - 1), steps[|steps| - 1])
  {
    hide HostAfter;
  }

  lemma InvParts(h: Host)
    requires HostInv(h)
    ensures Table(h.rows) && forall id :: id in h.working ==> id in h.rows && h.working[id].payload == h.rows[id].digest.payload
    ensures forall id :: id in h.rows ==> h.rows[id].receiptId == id
  {
  }

  lemma EndedEnds(r: Receipt, o: ProviderOutcome)
    ensures EndsAs(r, o, Ended(r, o))
  {
  }

  /** A step of a shorter run is the same step of a longer one. */
  lemma StepsAgree(steps: seq<HostStep>, n: nat, i: nat)
    requires i < n <= |steps|
    ensures HostAt(steps[..n], i) == HostAt(steps, i) && steps[..n][i] == steps[i]
  {
    assert steps[..n][..i] == steps[..i];
  }

  lemma RowsPersist(steps: seq<HostStep>, i: nat, n: nat)
    requires i <= n <= |steps|
    ensures RowsKept(HostAt(steps, i).rows, HostAt(steps, n).rows)
  {
    hide HostRun, HostInv, RowsKept;
    EmptyHostInv();
    HostRunKeeps(EMPTY_HOST, steps[..i]);
    HostRunKeeps(HostAt(steps, i), steps[i..n]);
    HostRunConcat(EMPTY_HOST, steps[..i], steps[i..n]);
    assert steps[..i] + steps[i..n] == steps[..n];
  }

  lemma NeverMet(steps: seq<HostStep>, id: Id, i: nat, n: nat)
    requires i < n <= |steps| && id !in HostAt(steps, n).rows
    ensures !MetBy(steps, i, id)
  {
    hide HostRun;
    RowsPersist(steps, i, n);
  }

  /** What the steps of the shorter run did, they did in the longer one. */
  lemma Lifted(steps: seq<HostStep>, n: nat, id: Id, row: Receipt, i: nat)
    requires i < n <= |steps|
    ensures BegunBy(steps[..n], i, id, row) <==> BegunBy(steps, i, id, row)
    ensures EndedBy(steps[..n], i, id, row) <==> EndedBy(steps, i, id, row)
    ensures MetBy(steps[..n], i, id) <==> MetBy(steps, i, id)
  {
    hide HostRun, EndsAs;
    StepsAgree(steps, n, i);
  }

  lemma SameBeginning(steps: seq<HostStep>, i: nat, id: Id, earlier: Receipt, row: Receipt)
    requires i < |steps| && BegunBy(steps, i, id, earlier)
    requires row.receiptId == earlier.receiptId && row.endpoint == earlier.endpoint && row.key == earlier.key && row.digest == earlier.digest
             && row.candidateKey == earlier.candidateKey && row.requestedModel == earlier.requestedModel
    ensures BegunBy(steps, i, id, row)
  {
    hide HostRun;
  }

  /** Where every row of every run comes from: it was inserted for its request by a post that matched no row; it is in
      progress, or it succeeded or failed because a completion recorded the outcome of a call that was made for it, or
      it is unknown because a restart met it in progress. */
  lemma {:induction false} RowHistory(steps: seq<HostStep>, id: Id)
    requires id in HostRun(EMPTY_HOST, steps).rows
    ensures var row := HostRun(EMPTY_HOST, steps).rows[id];
            && (exists i :: 0 <= i < |steps| && BegunBy(steps, i, id, row))
            && (row.status.ReceiptSucceeded? || row.status.ReceiptFailed? ==> exists i :: 0 <= i < |steps| && EndedBy(steps, i, id, row))
            && (row.status.TransportUnknown? ==> row.error == Some("TransportUnknown") && row.result.None?)
            && (row.status.TransportUnknown? <==> exists i :: 0 <= i < |steps| && MetBy(steps, i, id))
            && (row.status.InProgress? ==> row.error.None? && row.result.None?)
  {
    hide HostRun, BegunBy, MetBy;
    if steps == [] {
      NothingHosted();
    } else {
      var n := |steps| - 1;
      var h, row := HostAt(steps, n), HostRun(EMPTY_HOST, steps).rows[id];
      RowStep(steps, id);
      forall i, r: Receipt | 0 <= i < n
        ensures BegunBy(steps[..n], i, id, r) <==> BegunBy(steps, i, id, r)
        ensures EndedBy(steps[..n], i, id, r) <==> EndedBy(steps, i, id, r)
      {
        Lifted(steps, n, id, r, i);
      }
      forall i | 0 <= i < n ensures MetBy(steps[..n], i, id) <==> MetBy(steps, i, id) {
        Lifted(steps, n, id, row, i);
      }
      if id in h.rows {
        RowHistory(steps[..n], id);
        var i :| 0 <= i < n && BegunBy(steps[..n], i, id, h.rows[id]);
        SameBeginning(steps, i, id, h.rows[id], row);
        if MetBy(steps, n, id) {
          WasInProgress(steps, n, id);
        }
      } else {
        forall i | 0 <= i < n ensures !MetBy(steps, i, id) { NeverMet(steps, id, i, n); }
        NotThere(steps, n, id);
      }
    }
  }

  lemma WasInProgress(steps: seq<HostStep>, n: nat, id: Id)
    requires n < |steps| && MetBy(steps, n, id)
    ensures id in HostAt(steps, n).rows && HostAt(steps, n).rows[id].status.InProgress?
  {
    hide HostRun;
  }

  lemma NotThere(steps: seq<HostStep>, n: nat, id: Id)
    requires n < |steps| && id !in HostAt(steps, n).rows
    ensures !MetBy(steps, n, id)
  {
    hide HostRun;
  }

  lemma NothingHosted()
    ensures HostRun(EMPTY_HOST, []) == EMPTY_HOST
  {
  }
}
