/** Starting a batch: one execution and, with a registry, one recorded name per planned item; when
    a batch starts completely, when it stops half way, and a whole dispatch. */
module DispatchBatch {
  import opened Models
  import opened Events
  import opened Ledger
  import opened Views
  import opened Commands
  import opened Consistency
  import opened Runs
  import opened Acceptance
  import opened WorkRules
  import opened Routes
  import opened Executions
  import opened Witness
  import opened Activation
  import opened KernelService
  import opened Naming
  import opened Identities
  import opened Deltas
  import opened Dispatch
  import Graph

  /** The fresh identities that one item of a batch is given. */
  datatype FreshIds = FreshIds(executionId: Id, assignmentId: Id)

  /** The execution that a batch creates for an item, before it is named. */
  function ExecutionFor(items: map<Id, WorkItem>, p: Planned, f: FreshIds): Execution
    requires p.itemId in items
  {
    Execution(f.executionId, items[p.itemId].dataSpaceId, items[p.itemId].delegatedToNodeId, p.itemId, p.binding.pilotId,
              p.candidateKey, Requested, None, p.binding.pilotHostId, None, None)
  }

  function CreationKey(p: Planned, c: Caller): string {
    c.key + ":" + p.itemId
  }

  function NamingKey(f: FreshIds, c: Caller): string {
    c.key + ":" + f.executionId + ":agent-name"
  }

  /** The two commands of an item. */
  function CreationStep(items: map<Id, WorkItem>, p: Planned, f: FreshIds, c: Caller): Step
    requires p.itemId in items
  {
    StepBy(c.(key := CreationKey(p, c)), f.executionId, ExecutionCreated(ExecutionFor(items, p, f)), Human, NoContext)
  }

  function NamingStep(a: Assignment, f: FreshIds, c: Caller): Step {
    StepBy(Caller("system:dispatcher", NamingKey(f, c), c.now, c.recordedAt), f.assignmentId, AgentNameAssigned(a), System, IssuedName(Some(a)))
  }

  /** What the registry is asked to issue. */
  function DraftFor(items: map<Id, WorkItem>, p: Planned, f: FreshIds): Assignment
    requires p.itemId in items
  {
    Assignment(f.assignmentId, items[p.itemId].dataSpaceId, p.itemId, f.executionId, items[p.itemId].delegatedToNodeId, p.binding.pilotId,
               "", "", 0, p.column, 0, p.candidateKey)
  }

  /** The registry can issue a name: a known scale, a usable pool, and an assignment identity it has not seen. */
  predicate CanIssue(rows: seq<NameRow>, held: set<Id>, p: Planned, f: FreshIds) {
    p.scale.Some? && Pool(rows, p.scale.value) != [] && f.assignmentId !in held
  }

  // ---- one item

  /** The system after an item: after the creation, if that is accepted, and after the recording of `issued`. */
  ghost function ItemRun(s: Sys, p: Planned, f: FreshIds, c: Caller, issued: Option<Assignment>): Sys
    requires p.itemId in s.view.work.items
  {
    var created := Exec(s, CreationStep(s.view.work.items, p, f, c));
    if issued.None? || !Accepted(s, CreationStep(s.view.work.items, p, f, c)) then created
    else Exec(created, NamingStep(issued.value, f, c))
  }

  /** Both commands of the item are accepted. */
  ghost predicate ItemAccepted(s: Sys, p: Planned, f: FreshIds, c: Caller, issued: Option<Assignment>)
    requires p.itemId in s.view.work.items
  {
    var create := CreationStep(s.view.work.items, p, f, c);
    Accepted(s, create) && (issued.Some? ==> Accepted(Exec(s, create), NamingStep(issued.value, f, c)))
  }

  /** The name that an answered allocation issued: the draft with a next name of the pool. */
  ghost predicate IssuedFor(rows: seq<NameRow>, used: set<string>, items: map<Id, WorkItem>, p: Planned, f: FreshIds, a: Assignment)
    requires p.itemId in items
  {
    && p.scale.Some?
    && NextNameOk(Pool(rows, p.scale.value), p.column, used, a.baseName, a.suffix, a.agentName)
    && a == DraftFor(items, p, f).(agentName := a.agentName, baseName := a.baseName, suffix := a.suffix, column := p.column, scale := p.scale.value)
  }

  /** Starts one item: issues a name if names are issued, creates the execution, and records the name. It starts
      exactly when a name can be issued and both commands are accepted. */
  method StartItem(kernel: Kernel, registry: AgentNameRegistry?, p: Planned, f: FreshIds, c: Caller)
    returns (started: bool, issued: Option<Assignment>)
    requires kernel.Valid() && p.itemId in kernel.work.items
    requires registry != null ==> registry.Valid()
    modifies kernel, kernel.ledger, registry
    ensures kernel.Valid() && (registry != null ==> registry.Valid())
    ensures issued.Some? <==> registry != null && CanIssue(registry.rows, old(registry.assignments.Keys), p, f)
    ensures registry != null ==>
              if issued.Some?
              then IssuedFor(registry.rows, old(registry.usedNames), old(kernel.work.items), p, f, issued.value)
                   && registry.Holdings() == AddAssignment(old(registry.Holdings()), issued.value)
              else registry.Holdings() == old(registry.Holdings())
    ensures started <==> (registry != null ==> issued.Some?) && ItemAccepted(old(kernel.State()), p, f, c, issued)
    ensures kernel.State() ==
              if registry != null && issued.None? then old(kernel.State()) else ItemRun(old(kernel.State()), p, f, c, issued)
    ensures old(kernel.ledger.events) <= kernel.ledger.events
  {
    hide Kernel.Valid, Did, Issued, NextNameOk, Accepted, Exec;
    ghost var s := kernel.State();
    var items := kernel.work.items;
    issued := None;
    if registry != null {
      var answer := registry.Allocate(DraftFor(items, p, f), p.scale, p.column);
      if answer.Err? {
        return false, None;
      }
      issued := Some(answer.value);
    }
    var created := kernel.CreateExecution(ExecutionFor(items, p, f), c.(key := CreationKey(p, c)));
    Answered(created, s, CreationStep(items, p, f, c), kernel.State());
    if !created || issued.None? {
      return created, issued;
    }
    ghost var mid := kernel.State();
    var known := if f.assignmentId in registry.assignments then Some(registry.assignments[f.assignmentId]) else None;
    started := kernel.RecordNameAssignment(issued.value, known, Caller("system:dispatcher", NamingKey(f, c), c.now, c.recordedAt));
    Answered(started, mid, NamingStep(issued.value, f, c), kernel.State());
  }

  lemma Answered(ok: bool, s: Sys, step: Step, next: Sys)
    requires Did(ok, s, step, next)
    ensures ok == Accepted(s, step) && next == Exec(s, step) && s.log <= next.log
  {
    hide Accepted, Handle;
  }

  // ---- which items fit

  /** Identities and keys in use: of executions, of recorded and of issued assignments, and of events. */
  datatype Used = Used(executions: set<Id>, recorded: set<Id>, held: set<Id>, keys: set<string>)

  function UsedIn(a: AgentView, log: seq<StoredEvent>, held: set<Id>): Used {
    Used(a.executions.Keys, a.assignments.Keys, held, KeysOf(log))
  }

  /** After an item that was started. */
  function UsedNext(u: Used, p: Planned, f: FreshIds, c: Caller, naming: bool): Used {
    if naming then Used(u.executions + {f.executionId}, u.recorded + {f.assignmentId}, u.held + {f.assignmentId},
                        u.keys + {CreationKey(p, c), NamingKey(f, c)})
    else u.(executions := u.executions + {f.executionId}, keys := u.keys + {CreationKey(p, c)})
  }

  /** The stream is free for the Kernel. */
  predicate FreeStream(a: ActivationView, id: Id) {
    id == a.streamId ==> a.version == 0
  }

  /** What a caller can check before an item: its identities and keys are unused, and a name can be issued. */
  predicate ItemFits(a: ActivationView, u: Used, rows: Option<seq<NameRow>>, p: Planned, f: FreshIds, c: Caller) {
    && a.stage.Activated?
    && f.executionId !in u.executions && CreationKey(p, c) !in u.keys && FreeStream(a, f.executionId)
    && (rows.Some? ==>
          && CanIssue(rows.value, u.held, p, f) && f.assignmentId !in u.recorded
          && NamingKey(f, c) !in u.keys && NamingKey(f, c) != CreationKey(p, c) && FreeStream(a, f.assignmentId))
  }

  /** The Kernel's recorded names are among the names that the registry knows as used. */
  ghost predicate NamesCovered(a: AgentView, used: set<string>) {
    forall k :: k in a.assignments ==> a.assignments[k].agentName in used
  }

  /** In every run of a Kernel with its registry, over restarts as well, the recorded names are covered. */
  lemma CoveredInRuns(rows: seq<NameRow>, dataSpaceId: Id, activationStream: Id, events: seq<PlaneEvent>)
    requires CanRun(rows, Plane(Start(dataSpaceId, activationStream), NO_NAMES, false), events)
    ensures var x := PlaneRun(rows, Plane(Start(dataSpaceId, activationStream), NO_NAMES, false), events);
            NamesCovered(x.sys.view.agents, x.registry.used)
  {
    hide CanRun, PlaneRun, PlaneSafe;
    RestoringNeverRaises(rows, dataSpaceId, activationStream, events);
    RecordedNamesAreUsed(rows, PlaneRun(rows, Plane(Start(dataSpaceId, activationStream), NO_NAMES, false), events));
  }

  lemma CreationAdmits(v: View, p: Planned, f: FreshIds, c: Caller)
    requires p.itemId in v.work.items && Placed(v.work, v.dataSpaceId)
    ensures Admits(v, CreationStep(v.work.items, p, f, c)) <==> v.activation.stage.Activated? && f.executionId !in v.agents.executions
  {
    hide AdmitsWork, AdmitsEffects, AdmitsRoutes, AdmitsActivation, ValidAgentMessage, NameRegistered, AssignmentFor;
  }

  /** The creation is accepted exactly when the plane is activated and its identity and key are unused. */
  lemma CreationAcceptedIff(s: Sys, p: Planned, f: FreshIds, c: Caller)
    requires Reachable(s) && p.itemId in s.view.work.items
    ensures Accepted(s, CreationStep(s.view.work.items, p, f, c))
            <==> && s.view.activation.stage.Activated? && f.executionId !in s.view.agents.executions
                 && CreationKey(p, c) !in KeysOf(s.log) && FreeStream(s.view.activation, f.executionId)
  {
    hide Reachable, Accepted, Admits, Placed, KeysOf;
    ItemsPlaced(s);
    CreationAdmits(s.view, p, f, c);
    AcceptedIff(s, CreationStep(s.view.work.items, p, f, c));
    KeyUsedIff(s.log, CreationKey(p, c));
  }

  /** What the creation leaves. */
  lemma CreationLeaves(s: Sys, p: Planned, f: FreshIds, c: Caller)
    requires Reachable(s) && p.itemId in s.view.work.items && Accepted(s, CreationStep(s.view.work.items, p, f, c))
    ensures var t := Exec(s, CreationStep(s.view.work.items, p, f, c));
            && Reachable(t) && t.view.work == s.view.work && t.view.activation == s.view.activation && t.view.dataSpaceId == s.view.dataSpaceId
            && t.view.agents == s.view.agents.(executions := s.view.agents.executions[f.executionId := ExecutionFor(s.view.work.items, p, f)])
            && KeysOf(t.log) == KeysOf(s.log) + {CreationKey(p, c)}
  {
    hide Reachable, Accepted, Moves, Exec, KeysOf, AdmitsAgents;
    var step := CreationStep(s.view.work.items, p, f, c);
    AcceptedMoves(s, step);
    SameServices(s, step);
    AgentMove(s, step, Exec(s, step));
    WorkMove(s, step, Exec(s, step));
    ActivationMove(s, step, Exec(s, step));
  }

  lemma NamingAdmits(v: View, items: map<Id, WorkItem>, p: Planned, f: FreshIds, c: Caller, a: Assignment)
    requires p.itemId in items && items[p.itemId].dataSpaceId == v.dataSpaceId
    requires a == DraftFor(items, p, f).(agentName := a.agentName, baseName := a.baseName, suffix := a.suffix, column := a.column, scale := a.scale)
    requires f.executionId in v.agents.executions && v.agents.executions[f.executionId] == ExecutionFor(items, p, f)
    requires forall k :: k in v.agents.assignments ==> v.agents.assignments[k].agentName != a.agentName
    ensures Admits(v, NamingStep(a, f, c)) <==> f.assignmentId !in v.agents.assignments
  {
    hide AdmitsWork, AdmitsEffects, AdmitsRoutes, AdmitsActivation, ValidAgentMessage, NameRegistered, AssignmentFor;
  }

  lemma NamingAcceptedIff(s: Sys, items: map<Id, WorkItem>, p: Planned, f: FreshIds, c: Caller, a: Assignment)
    requires Reachable(s) && p.itemId in items && items[p.itemId].dataSpaceId == s.view.dataSpaceId
    requires a == DraftFor(items, p, f).(agentName := a.agentName, baseName := a.baseName, suffix := a.suffix, column := a.column, scale := a.scale)
    requires f.executionId in s.view.agents.executions && s.view.agents.executions[f.executionId] == ExecutionFor(items, p, f)
    requires forall k :: k in s.view.agents.assignments ==> s.view.agents.assignments[k].agentName != a.agentName
    ensures Accepted(s, NamingStep(a, f, c))
            <==> && f.assignmentId !in s.view.agents.assignments
                 && NamingKey(f, c) !in KeysOf(s.log) && FreeStream(s.view.activation, f.assignmentId)
  {
    hide Reachable, Accepted, Admits, KeysOf;
    NamingAdmits(s.view, items, p, f, c, a);
    AcceptedIff(s, NamingStep(a, f, c));
    KeyUsedIff(s.log, NamingKey(f, c));
  }

  lemma NamingLeaves(s: Sys, f: FreshIds, c: Caller, a: Assignment)
    requires Reachable(s) && Accepted(s, NamingStep(a, f, c)) && a.assignmentId == f.assignmentId && a.executionId == f.executionId
    ensures var t := Exec(s, NamingStep(a, f, c));
            && Reachable(t) && t.view.work == s.view.work && t.view.activation == s.view.activation && t.view.dataSpaceId == s.view.dataSpaceId
            && f.executionId in s.view.agents.executions
            && t.view.agents == s.view.agents.(
                 assignments := s.view.agents.assignments[f.assignmentId := a],
                 executions := s.view.agents.executions[f.executionId := s.view.agents.executions[f.executionId].(agentName := Some(a.agentName))])
            && KeysOf(t.log) == KeysOf(s.log) + {NamingKey(f, c)}
  {
    hide Reachable, Accepted, Moves, Exec, KeysOf;
    var step := NamingStep(a, f, c);
    AcceptedMoves(s, step);
    SameServices(s, step);
    AgentMove(s, step, Exec(s, step));
    WorkMove(s, step, Exec(s, step));
    ActivationMove(s, step, Exec(s, step));
  }

  /** What the registry answered for the item: an issued name exactly when it can issue one. */
  ghost predicate AnsweredFor(rows: Option<seq<NameRow>>, used: set<string>, held: set<Id>, items: map<Id, WorkItem>,
      p: Planned, f: FreshIds, issued: Option<Assignment>)
    requires p.itemId in items
  {
    && (issued.Some? <==> rows.Some? && CanIssue(rows.value, held, p, f))
    && (issued.Some? ==> IssuedFor(rows.value, used, items, p, f, issued.value))
  }

  /** An item starts exactly when it fits. */
  lemma ItemFitsIff(s: Sys, rows: Option<seq<NameRow>>, used: set<string>, held: set<Id>, p: Planned, f: FreshIds, c: Caller, issued: Option<Assignment>)
    requires Reachable(s) && p.itemId in s.view.work.items && (rows.Some? ==> NamesCovered(s.view.agents, used))
    requires AnsweredFor(rows, used, held, s.view.work.items, p, f, issued)
    ensures (rows.Some? ==> issued.Some?) && ItemAccepted(s, p, f, c, issued)
            <==> ItemFits(s.view.activation, UsedIn(s.view.agents, s.log, held), rows, p, f, c)
  {
    hide Reachable, Accepted, Exec, KeysOf, FreeStream, CanIssue, NextNameOk, Placed;
    var create := CreationStep(s.view.work.items, p, f, c);
    CreationAcceptedIff(s, p, f, c);
    if Accepted(s, create) && issued.Some? {
      CreationLeaves(s, p, f, c);
      ItemPlaced(s, p);
      NameIsFree(s, rows.value, used, p, f, issued.value);
      NamingAcceptedIff(Exec(s, create), s.view.work.items, p, f, c, issued.value);
    }
  }

  lemma ItemPlaced(s: Sys, p: Planned)
    requires Reachable(s) && p.itemId in s.view.work.items
    ensures s.view.work.items[p.itemId].dataSpaceId == s.view.dataSpaceId
  {
    hide Reachable;
    ItemsPlaced(s);
  }

  lemma NameIsFree(s: Sys, rows: seq<NameRow>, used: set<string>, p: Planned, f: FreshIds, a: Assignment)
    requires p.itemId in s.view.work.items && NamesCovered(s.view.agents, used) && IssuedFor(rows, used, s.view.work.items, p, f, a)
    ensures forall k :: k in s.view.agents.assignments ==> s.view.agents.assignments[k].agentName != a.agentName
  {
  }

  /** What an item that fits leaves: its execution, named if names are issued, and its identities and keys used. */
  lemma ItemLeaves(s: Sys, used: set<string>, held: set<Id>, p: Planned, f: FreshIds, c: Caller, issued: Option<Assignment>)
    requires Reachable(s) && p.itemId in s.view.work.items && ItemAccepted(s, p, f, c, issued)
    requires issued.Some? ==> issued.value.assignmentId == f.assignmentId && issued.value.executionId == f.executionId
    ensures var t, name := ItemRun(s, p, f, c, issued), if issued.Some? then Some(issued.value.agentName) else None;
            && Reachable(t) && t.view.work == s.view.work && t.view.activation == s.view.activation && f.executionId !in s.view.agents.executions
            && t.view.agents.executions == s.view.agents.executions[f.executionId := ExecutionFor(s.view.work.items, p, f).(agentName := name)]
            && UsedIn(t.view.agents, t.log, if issued.Some? then held + {f.assignmentId} else held)
                 == UsedNext(UsedIn(s.view.agents, s.log, held), p, f, c, issued.Some?)
            && (issued.Some? && NamesCovered(s.view.agents, used) ==> NamesCovered(t.view.agents, used + {issued.value.agentName}))
            && (issued.Some? ==> f.assignmentId in t.view.agents.assignments && t.view.agents.assignments[f.assignmentId] == issued.value)
  {
    hide Reachable, Accepted, Exec, KeysOf, FreeStream;
    CreationLeaves(s, p, f, c);
    CreationAcceptedIff(s, p, f, c);
    if issued.Some? {
      NamingLeaves(Exec(s, CreationStep(s.view.work.items, p, f, c)), f, c, issued.value);
    }
  }

  /** What an item that does not start leaves: nothing, or its execution without a name. */
  lemma ItemRefusedLeaves(s: Sys, p: Planned, f: FreshIds, c: Caller, issued: Option<Assignment>)
    requires Reachable(s) && p.itemId in s.view.work.items && !ItemAccepted(s, p, f, c, issued)
    ensures var t := ItemRun(s, p, f, c, issued);
            && Reachable(t) && t.view.work == s.view.work
            && (t.view.agents.executions == s.view.agents.executions
                || (f.executionId !in s.view.agents.executions
                    && t.view.agents.executions == s.view.agents.executions[f.executionId := ExecutionFor(s.view.work.items, p, f)]))
  {
    hide Reachable, Accepted, Exec, KeysOf, FreeStream;
    var create := CreationStep(s.view.work.items, p, f, c);
    if Accepted(s, create) {
      CreationLeaves(s, p, f, c);
      CreationAcceptedIff(s, p, f, c);
      NotAcceptedStays(Exec(s, create), NamingStep(issued.value, f, c));
    } else {
      NotAcceptedStays(s, create);
    }
  }

  lemma NotAcceptedStays(s: Sys, step: Step)
    requires !Accepted(s, step)
    ensures Exec(s, step) == s
  {
    hide Accepted;
  }

  // ---- a batch

  /** Identities and keys in use after the first `n` items were started. */
  function UsedAfter(u: Used, plan: seq<Planned>, ids: seq<FreshIds>, c: Caller, naming: bool, n: nat): Used
    requires n <= |plan| == |ids|
  {
    if n == 0 then u else UsedNext(UsedAfter(u, plan, ids, c, naming, n - 1), plan[n - 1], ids[n - 1], c, naming)
  }

  /** Item `n` fits when the ones before it were started. */
  predicate FitsInTurn(a: ActivationView, u: Used, rows: Option<seq<NameRow>>, plan: seq<Planned>, ids: seq<FreshIds>, c: Caller, n: nat)
    requires n < |plan| == |ids|
  {
    ItemFits(a, UsedAfter(u, plan, ids, c, rows.Some?, n), rows, plan[n], ids[n], c)
  }

  /** The first `n` items have their requested, named execution, and nothing else changed but perhaps the execution `extra`. */
  ghost predicate BatchStarted(before: map<Id, Execution>, after: map<Id, Execution>, items: map<Id, WorkItem>,
      plan: seq<Planned>, ids: seq<FreshIds>, names: seq<Option<string>>, n: nat, extra: set<Id>)
    requires n <= |plan| == |ids| && n <= |names| && forall i :: 0 <= i < |plan| ==> plan[i].itemId in items
  {
    && (forall i :: 0 <= i < n ==>
          && ids[i].executionId !in before && ids[i].executionId in after
          && after[ids[i].executionId] == ExecutionFor(items, plan[i], ids[i]).(agentName := names[i]))
    && (forall k :: k in before ==> k in after && after[k] == before[k])
    && (forall k :: k in after && k !in before && k !in extra ==> exists i :: 0 <= i < n && ids[i].executionId == k)
  }

  lemma BatchGrows(before: map<Id, Execution>, now: map<Id, Execution>, after: map<Id, Execution>, items: map<Id, WorkItem>,
      plan: seq<Planned>, ids: seq<FreshIds>, names: seq<Option<string>>, n: nat, name: Option<string>)
    requires n < |plan| == |ids| && n == |names| && forall i :: 0 <= i < |plan| ==> plan[i].itemId in items
    requires BatchStarted(before, now, items, plan, ids, names, n, {})
    requires ids[n].executionId !in now && after == now[ids[n].executionId := ExecutionFor(items, plan[n], ids[n]).(agentName := name)]
    ensures BatchStarted(before, after, items, plan, ids, names + [name], n + 1, {})
  {
    hide ExecutionFor;
    forall k | k in after && k !in before ensures exists i :: 0 <= i < n + 1 && ids[i].executionId == k {
      if k != ids[n].executionId {
        var i :| 0 <= i < n && ids[i].executionId == k;
      }
    }
  }

  lemma NoneStarted(before: map<Id, Execution>, items: map<Id, WorkItem>, plan: seq<Planned>, ids: seq<FreshIds>)
    requires |plan| == |ids| && forall i :: 0 <= i < |plan| ==> plan[i].itemId in items
    ensures BatchStarted(before, before, items, plan, ids, [], 0, {})
  {
  }

  lemma LastRefused(before: map<Id, Execution>, now: map<Id, Execution>, after: map<Id, Execution>, items: map<Id, WorkItem>,
      plan: seq<Planned>, ids: seq<FreshIds>, names: seq<Option<string>>, n: nat)
    requires n < |plan| == |ids| && n == |names| && forall i :: 0 <= i < |plan| ==> plan[i].itemId in items
    requires BatchStarted(before, now, items, plan, ids, names, n, {})
    requires after == now || (ids[n].executionId !in now && after == now[ids[n].executionId := ExecutionFor(items, plan[n], ids[n])])
    ensures BatchStarted(before, after, items, plan, ids, names, n, {ids[n].executionId})
  {
  }

  ghost function RowsOf(registry: AgentNameRegistry?): Option<seq<NameRow>> {
    if registry == null then None else Some(registry.rows)
  }

  ghost function HeldBy(registry: AgentNameRegistry?): Names
    reads registry
  {
    if registry == null then NO_NAMES else registry.Holdings()
  }

  /** The names that the Kernel recorded are known to the registry, if there is one. */
  ghost predicate Covered(registry: AgentNameRegistry?, a: AgentView)
    reads registry
  {
    registry != null ==> NamesCovered(a, registry.usedNames)
  }

  /** The plane as a dispatch finds it: the live views, what is in use, and whether the registry covers the recorded names. */
  datatype Found = Found(view: View, used: Used, covered: bool)

  ghost function PlaneAt(kernel: Kernel, registry: AgentNameRegistry?): Found
    reads kernel, kernel.activation, kernel.ledger, registry
  {
    Found(kernel.Live(), UsedIn(kernel.agents, kernel.ledger.events, HeldBy(registry).assignments.Keys), Covered(registry, kernel.agents))
  }

  /** The first `n` items fit in turn, and the next one, if there is one, does not. */
  predicate FitsUpTo(was: Found, rows: Option<seq<NameRow>>, plan: seq<Planned>, ids: seq<FreshIds>, c: Caller, n: nat)
    requires n <= |plan| == |ids|
  {
    && (forall i :: 0 <= i < n ==> FitsInTurn(was.view.activation, was.used, rows, plan, ids, c, i))
    && (n < |plan| ==> !FitsInTurn(was.view.activation, was.used, rows, plan, ids, c, n))
  }

  /** Starts the items of a batch in order, up to the first that does not start. What was started before stays
      requested; of the item that did not start at most an execution without a recorded name is left. When the
      registry covers the recorded names, the batch stops exactly at the first item that does not fit. */
  method StartBatch(kernel: Kernel, registry: AgentNameRegistry?, plan: seq<Planned>, ids: seq<FreshIds>, c: Caller)
    returns (names: seq<Option<string>>, ghost reached: Sys, ghost issued: Option<Assignment>)
    requires kernel.Valid() && |plan| == |ids| && forall i :: 0 <= i < |plan| ==> plan[i].itemId in kernel.work.items
    requires registry != null ==> registry.Valid()
    modifies kernel, kernel.ledger, registry
    ensures kernel.Valid() && (registry != null ==> registry.Valid())
    ensures kernel.work == old(kernel.work) && |names| <= |plan|
    ensures BatchStarted(old(kernel.agents.executions), kernel.agents.executions, kernel.work.items, plan, ids, names, |names|,
                         if |names| < |plan| then {ids[|names|].executionId} else {})
    ensures forall i :: 0 <= i < |names| ==> names[i].Some? == (registry != null)
    ensures old(kernel.ledger.events) <= kernel.ledger.events && reached.view.work == old(kernel.work)
    ensures |names| == |plan| ==> reached == kernel.State()
    ensures |names| < |plan| ==>
              && !((registry != null ==> issued.Some?) && ItemAccepted(reached, plan[|names|], ids[|names|], c, issued))
              && kernel.State() == if registry != null && issued.None? then reached else ItemRun(reached, plan[|names|], ids[|names|], c, issued)
    ensures old(PlaneAt(kernel, registry)).covered ==> FitsUpTo(old(PlaneAt(kernel, registry)), RowsOf(registry), plan, ids, c, |names|)
    ensures |names| == |plan| && old(PlaneAt(kernel, registry)).covered ==> Covered(registry, kernel.agents)
  {
    hide AgentNameRegistry.Valid, BatchStarted, Reachable, Indexed, ItemAccepted, ItemRun, IssuedFor, CanIssue, ItemFits, UsedIn, NamesCovered, UsedNext;
    ghost var before, items, a := kernel.agents.executions, kernel.work.items, kernel.Live().activation;
    ghost var u := UsedIn(kernel.agents, kernel.ledger.events, HeldBy(registry).assignments.Keys);
    ghost var covered := Covered(registry, kernel.agents);
    names, reached, issued := [], kernel.State(), None;
    NoneStarted(before, items, plan, ids);
    for n := 0 to |plan|
      invariant kernel.Valid() && (registry != null ==> registry.Valid())
      invariant old(kernel.ledger.events) <= kernel.ledger.events
      invariant kernel.work == old(kernel.work) && |names| == n && reached == kernel.State() && reached.view.activation == a
      invariant BatchStarted(before, kernel.agents.executions, items, plan, ids, names, n, {})
      invariant forall i :: 0 <= i < n ==> names[i].Some? == (registry != null)
      invariant covered ==> Covered(registry, kernel.agents)
      invariant UsedIn(kernel.agents, kernel.ledger.events, HeldBy(registry).assignments.Keys) == UsedAfter(u, plan, ids, c, registry != null, n)
      invariant covered ==> forall i :: 0 <= i < n ==> FitsInTurn(a, u, RowsOf(registry), plan, ids, c, i)
    {
      ghost var now, held := kernel.agents.executions, HeldBy(registry);
      var started, answer := StartItem(kernel, registry, plan[n], ids[n], c);
      issued := answer;
      if covered {
        ItemFitsIff(reached, RowsOf(registry), held.used, held.assignments.Keys, plan[n], ids[n], c, issued);
      }
      if !started {
        if registry == null || issued.Some? {
          ItemRefusedLeaves(reached, plan[n], ids[n], c, issued);
        }
        LastRefused(before, now, kernel.agents.executions, items, plan, ids, names, n);
        return;
      }
      IssuedIdentity(RowsOf(registry), held.used, items, plan[n], ids[n], issued);
      ItemLeaves(reached, held.used, held.assignments.Keys, plan[n], ids[n], c, issued);
      assert HeldBy(registry).assignments.Keys == (if issued.Some? then held.assignments.Keys + {ids[n].assignmentId} else held.assignments.Keys);
      var name := if answer.Some? then Some(answer.value.agentName) else None;
      BatchGrows(before, now, kernel.agents.executions, items, plan, ids, names, n, name);
      names := names + [name];
      reached := kernel.State();
    }
  }

  lemma IssuedIdentity(rows: Option<seq<NameRow>>, used: set<string>, items: map<Id, WorkItem>, p: Planned, f: FreshIds, issued: Option<Assignment>)
    requires p.itemId in items && (issued.Some? ==> rows.Some? && IssuedFor(rows.value, used, items, p, f, issued.value))
    ensures issued.Some? ==> issued.value.assignmentId == f.assignmentId && issued.value.executionId == f.executionId
  {
  }

  // ---- when a batch starts completely

  function KeysFor(p: Planned, f: FreshIds, c: Caller, naming: bool): set<string> {
    if naming then {CreationKey(p, c), NamingKey(f, c)} else {CreationKey(p, c)}
  }

  /** No two items of the batch share an identity or an event key. */
  predicate BatchDistinct(plan: seq<Planned>, ids: seq<FreshIds>, c: Caller, naming: bool)
    requires |plan| == |ids|
  {
    forall i, j :: 0 <= i < j < |plan| ==>
      && ids[i].executionId != ids[j].executionId && KeysFor(plan[i], ids[i], c, naming) !! KeysFor(plan[j], ids[j], c, naming)
      && (naming ==> ids[i].assignmentId != ids[j].assignmentId)
  }

  function ExecutionIds(ids: seq<FreshIds>, n: nat): set<Id>
    requires n <= |ids|
  {
    set i | 0 <= i < n :: ids[i].executionId
  }

  function AssignmentIds(ids: seq<FreshIds>, n: nat): set<Id>
    requires n <= |ids|
  {
    set i | 0 <= i < n :: ids[i].assignmentId
  }

  function BatchKeys(plan: seq<Planned>, ids: seq<FreshIds>, c: Caller, naming: bool, n: nat): set<string>
    requires n <= |plan| == |ids|
  {
    set i, k | 0 <= i < n && k in KeysFor(plan[i], ids[i], c, naming) :: k
  }

  lemma NothingYet(plan: seq<Planned>, ids: seq<FreshIds>, c: Caller, naming: bool)
    requires |plan| == |ids|
    ensures ExecutionIds(ids, 0) == {} && AssignmentIds(ids, 0) == {} && BatchKeys(plan, ids, c, naming, 0) == {}
  {
    hide KeysFor;
  }

  lemma OneMore(plan: seq<Planned>, ids: seq<FreshIds>, c: Caller, naming: bool, n: nat)
    requires n < |plan| == |ids|
    ensures ExecutionIds(ids, n + 1) == ExecutionIds(ids, n) + {ids[n].executionId}
    ensures AssignmentIds(ids, n + 1) == AssignmentIds(ids, n) + {ids[n].assignmentId}
    ensures BatchKeys(plan, ids, c, naming, n + 1) == BatchKeys(plan, ids, c, naming, n) + KeysFor(plan[n], ids[n], c, naming)
  {
    hide KeysFor;
  }

  lemma {:induction false} UsedAfterIs(u: Used, plan: seq<Planned>, ids: seq<FreshIds>, c: Caller, naming: bool, n: nat)
    requires n <= |plan| == |ids|
    ensures UsedAfter(u, plan, ids, c, naming, n) ==
              if naming then Used(u.executions + ExecutionIds(ids, n), u.recorded + AssignmentIds(ids, n), u.held + AssignmentIds(ids, n),
                                  u.keys + BatchKeys(plan, ids, c, naming, n))
              else u.(executions := u.executions + ExecutionIds(ids, n), keys := u.keys + BatchKeys(plan, ids, c, naming, n))
  {
    hide CreationKey, NamingKey, ExecutionIds, AssignmentIds, BatchKeys;
    if n == 0 {
      NothingYet(plan, ids, c, naming);
    } else {
      UsedAfterIs(u, plan, ids, c, naming, n - 1);
      OneMore(plan, ids, c, naming, n - 1);
    }
  }

  lemma FitsInTurnIff(a: ActivationView, u: Used, rows: Option<seq<NameRow>>, plan: seq<Planned>, ids: seq<FreshIds>, c: Caller, n: nat)
    requires n < |plan| == |ids|
    ensures FitsInTurn(a, u, rows, plan, ids, c, n)
            <==> && ItemFits(a, u, rows, plan[n], ids[n], c)
                 && forall i :: 0 <= i < n ==>
                      && ids[i].executionId != ids[n].executionId && KeysFor(plan[i], ids[i], c, rows.Some?) !! KeysFor(plan[n], ids[n], c, rows.Some?)
                      && (rows.Some? ==> ids[i].assignmentId != ids[n].assignmentId)
  {
    hide CreationKey, NamingKey, FreeStream, UsedAfter;
    UsedAfterIs(u, plan, ids, c, rows.Some?, n);
  }

  /** Each item fits at the call and no two share an identity or a key: what a caller can check before the batch. */
  predicate BatchFits(a: ActivationView, u: Used, rows: Option<seq<NameRow>>, plan: seq<Planned>, ids: seq<FreshIds>, c: Caller)
    requires |plan| == |ids|
  {
    (forall n :: 0 <= n < |plan| ==> ItemFits(a, u, rows, plan[n], ids[n], c)) && BatchDistinct(plan, ids, c, rows.Some?)
  }

  /** Every item of a batch fits in turn exactly when the batch fits at the call. */
  lemma BatchFitsIff(a: ActivationView, u: Used, rows: Option<seq<NameRow>>, plan: seq<Planned>, ids: seq<FreshIds>, c: Caller)
    requires |plan| == |ids|
    ensures (forall n :: 0 <= n < |plan| ==> FitsInTurn(a, u, rows, plan, ids, c, n)) <==> BatchFits(a, u, rows, plan, ids, c)
  {
    hide FitsInTurn, ItemFits, KeysFor;
    forall n | 0 <= n < |plan|
      ensures FitsInTurn(a, u, rows, plan, ids, c, n)
            <==> && ItemFits(a, u, rows, plan[n], ids[n], c)
                 && forall i :: 0 <= i < n ==>
                      && ids[i].executionId != ids[n].executionId && KeysFor(plan[i], ids[i], c, rows.Some?) !! KeysFor(plan[n], ids[n], c, rows.Some?)
                      && (rows.Some? ==> ids[i].assignmentId != ids[n].assignmentId)
    {
      FitsInTurnIff(a, u, rows, plan, ids, c, n);
    }
  }

  /** An item that was idle before a complete batch has exactly one open execution after it: the one that the batch created. */
  lemma OneOpenExecution(before: AgentView, after: map<Id, Execution>, items: map<Id, WorkItem>,
      plan: seq<Planned>, ids: seq<FreshIds>, names: seq<Option<string>>, i: nat, k: Id)
    requires |plan| == |ids| == |names| && i < |plan| && forall j :: 0 <= j < |plan| ==> plan[j].itemId in items
    requires BatchStarted(before.executions, after, items, plan, ids, names, |plan|, {})
    requires forall a, b :: 0 <= a < b < |plan| ==> plan[a].itemId != plan[b].itemId
    requires !Busy(before, plan[i].itemId)
    ensures IsOpenFor(after, k, plan[i].itemId) <==> k == ids[i].executionId
  {
    if k in after && k !in before.executions {
      var j :| 0 <= j < |plan| && ids[j].executionId == k;
    }
  }

  /** The execution works on the item and is requested or running. */
  predicate IsOpenFor(xs: map<Id, Execution>, k: Id, itemId: Id) {
    k in xs && xs[k].workItemId == itemId && xs[k].state in {Requested, ActiveExecution}
  }

  // ---- what a dispatch creates

  /** The execution that a dispatch makes for an item: on the item's delegate, for the pilot and host bound to that node,
      with the candidate that routing picked from the current published route, requested and otherwise blank. */
  ghost predicate DispatchedFor(v: View, bindings: seq<Binding>, routing: Routing, itemId: Id, executionId: Id, x: Execution) {
    && itemId in v.work.items
    && var w := v.work.items[itemId];
       && x.executionId == executionId && x.workItemId == itemId && x.dataSpaceId == w.dataSpaceId && x.nodeId == w.delegatedToNodeId
       && (exists i :: 0 <= i < |bindings| && bindings[i].nodeId == w.delegatedToNodeId && bindings[i].pilotId == x.pilotId
                       && bindings[i].pilotHostId == x.pilotHostId)
       && (exists k :: k in v.routes && v.routes[k].state.Published? && v.routes[k].routeKey == w.routeKey
                       && v.routes[k].evidenceCursor == routing.evidenceCursor && routing.select(v.routes[k]) == Some(x.candidateKey))
       && routing.accepts(x.candidateKey)
       && x.state.Requested? && x.providerSessionId.None? && x.pauseReason.None?
  }

  /** The first `n` items have their dispatched execution. */
  ghost predicate AllDispatched(v: View, bindings: seq<Binding>, routing: Routing, items: seq<Id>, ids: seq<FreshIds>, after: map<Id, Execution>, n: nat)
    requires n <= |items| && n <= |ids|
  {
    forall i :: 0 <= i < n ==>
      ids[i].executionId in after && DispatchedFor(v, bindings, routing, items[i], ids[i].executionId, after[ids[i].executionId])
  }

  lemma PlannedDispatched(v: View, bindings: seq<Binding>, routing: Routing, itemId: Id, p: Planned, f: FreshIds, name: Option<string>)
    requires PlannedFor(v.work, v.routes, bindings, routing, itemId, p)
    ensures DispatchedFor(v, bindings, routing, itemId, f.executionId, ExecutionFor(v.work.items, p, f).(agentName := name))
  {
    var i :| 0 <= i < |bindings| && bindings[i] == p.binding;
  }

  lemma BatchDispatched(v: View, bindings: seq<Binding>, routing: Routing, items: seq<Id>, plan: seq<Planned>, ids: seq<FreshIds>,
      names: seq<Option<string>>, after: map<Id, Execution>)
    requires PlanOf(v.work, v.routes, bindings, routing, items, plan) && |plan| <= |ids|
    requires BatchLeft(v.agents.executions, after, v.work.items, plan, ids[..|plan|], names)
    ensures |names| <= |items| && AllDispatched(v, bindings, routing, items, ids, after, |names|)
  {
    hide PlannedFor, DispatchedFor, ExecutionFor;
    forall i | 0 <= i < |names|
      ensures ids[i].executionId in after && DispatchedFor(v, bindings, routing, items[i], ids[i].executionId, after[ids[i].executionId])
    {
      assert ids[..|plan|][i] == ids[i];
      PlannedDispatched(v, bindings, routing, items[i], plan[i], ids[i], names[i]);
    }
  }

  /** The name recorded for an item is for its execution, its delegate and the pilot bound to it. */
  lemma IssuedNames(rows: seq<NameRow>, used: set<string>, items: map<Id, WorkItem>, p: Planned, f: FreshIds, a: Assignment)
    requires p.itemId in items && IssuedFor(rows, used, items, p, f, a)
    ensures a.assignmentId == f.assignmentId && a.executionId == f.executionId && a.workItemId == p.itemId
    ensures a.nodeId == items[p.itemId].delegatedToNodeId && a.dataSpaceId == items[p.itemId].dataSpaceId
    ensures a.pilotId == p.binding.pilotId && a.candidateKey == p.candidateKey && a.column == p.column && Some(a.scale) == p.scale
    ensures a.agentName !in used && exists row :: row in rows && row.scale == a.scale && NameFor(row, a.column) == a.baseName
  {
    var i :| 0 <= i < |Pool(rows, p.scale.value)| && NameFor(Pool(rows, p.scale.value)[i], p.column) == a.baseName;
    assert Pool(rows, p.scale.value)[i] in Pool(rows, p.scale.value);
  }

  /** The two commands of an item, with their keys and actors. */
  lemma ItemCommands(items: map<Id, WorkItem>, p: Planned, f: FreshIds, a: Assignment, c: Caller)
    requires p.itemId in items
    ensures var create, name := CreationStep(items, p, f, c), NamingStep(a, f, c);
            && create.streamId == f.executionId && create.body == ExecutionCreated(ExecutionFor(items, p, f)) && create.actorType.Human?
            && create.actorId == Some(c.actorId) && create.key == c.key + ":" + p.itemId
            && name.streamId == f.assignmentId && name.body == AgentNameAssigned(a) && name.actorType.System?
            && name.actorId == Some("system:dispatcher") && name.key == c.key + ":" + f.executionId + ":agent-name"
  {
  }

  // ---- hosts that disconnect

  lemma DisconnectMoves(s: Sys, step: Step, k: Id)
    requires Reachable(s) && Accepted(s, step) && step.body.PilotHostDisconnected? && k in s.view.agents.executions
    ensures var x, xs := s.view.agents.executions[k], Exec(s, step).view.agents.executions;
            && k in xs
            && xs[k] == if x.pilotHostId == step.body.pilotHostId && x.state.ActiveExecution?
                        then x.(state := PausedExecution, pauseReason := Some("pilot_host_disconnected")) else x
  {
    hide Reachable, Accepted, Exec, Moves, AdmitsAgents;
    AcceptedMoves(s, step);
    AgentMove(s, step, Exec(s, step));
  }

  /** An execution that a dispatch created and that is active later is paused by a disconnected host exactly when the host
      is the one bound to the item's delegate at the dispatch. */
  lemma BoundHostPauses(s: Sys, i: nat, was: View, bindings: seq<Binding>, routing: Routing, itemId: Id, k: Id, b: nat, step: Step)
    requires Reachable(s) && i <= |s.log| && UniqueNodes(bindings)
    requires k in At(s, i).view.agents.executions && DispatchedFor(was, bindings, routing, itemId, k, At(s, i).view.agents.executions[k])
    requires b < |bindings| && bindings[b].nodeId == was.work.items[itemId].delegatedToNodeId
    requires k in s.view.agents.executions && s.view.agents.executions[k].state.ActiveExecution?
    requires step.body.PilotHostDisconnected? && Accepted(s, step)
    ensures var xs := Exec(s, step).view.agents.executions;
            k in xs && (xs[k].state.PausedExecution? <==> step.body.pilotHostId == bindings[b].pilotHostId)
  {
    hide Reachable, Accepted, Exec, At;
    ExecutionsMoveForward(s, i, |s.log|);
    AtEnd(s);
    DisconnectMoves(s, step, k);
    var j :| 0 <= j < |bindings| && bindings[j].nodeId == was.work.items[itemId].delegatedToNodeId
             && bindings[j].pilotHostId == At(s, i).view.agents.executions[k].pilotHostId;
    assert j == b;
  }

  // ---- a whole dispatch

  /** A refused dispatch created nothing, or stopped half way; a started one has a named execution per item. */
  datatype Dispatched =
    | RefusedBefore
    | StoppedAfter(plan: seq<Planned>, names: seq<Option<string>>)
    | StartedAll(plan: seq<Planned>, names: seq<Option<string>>, delta: EventDelta)

  lemma KernelFacts(kernel: Kernel)
    requires kernel.Valid()
    ensures EdgesKnown(kernel.work.edges, kernel.work.items) && kernel.ledger.Valid()
  {
    hide Reachable, EdgesKnown, Indexed;
    DispatchFacts(kernel.State());
  }

  lemma EligibleKnown(w: WorkView, a: AgentView, allowed: Option<set<Id>>, id: Id)
    requires Eligible(w, a, allowed, id)
    ensures id in w.items && !Busy(a, id)
  {
  }

  lemma {:induction false} ElementCount(xs: seq<Id>)
    ensures |set x | x in xs| <= |xs|
    ensures (forall i, j :: 0 <= i < j < |xs| ==> xs[i] != xs[j]) ==> |set x | x in xs| == |xs|
  {
    if xs != [] {
      var front, last := xs[..|xs| - 1], xs[|xs| - 1];
      ElementCount(front);
      assert xs == front + [last];
      assert (set x | x in xs) == (set x | x in front) + {last};
    }
  }

  lemma DistinctFew(all: seq<Id>, some: seq<Id>)
    requires forall k :: k in some ==> k in all
    requires forall i, j :: 0 <= i < j < |some| ==> some[i] != some[j]
    ensures |some| <= |all|
  {
    ElementCount(some);
    ElementCount(all);
    var xs, ys := set k | k in some, set k | k in all;
    assert xs <= ys;
    Graph.SubsetSize(xs, ys);
  }

  /** The deltas taken so far stay right when the ledger grows. */
  lemma DeltasGrow(deltas: DeltaDispatcher, log: seq<StoredEvent>)
    requires deltas.ledger.Valid() && log <= deltas.ledger.events && deltas.startupCursor <= |log| && deltas.cursor <= |log|
    requires Covers(deltas.taken, deltas.startupCursor, deltas.cursor, log) && |deltas.called| == |deltas.taken|
    ensures deltas.Valid()
  {
    hide Covers, Indexed;
    assert log + deltas.ledger.events[|log|..] == deltas.ledger.events;
    CoversGrow(deltas.taken, deltas.startupCursor, deltas.cursor, log, deltas.ledger.events[|log|..]);
  }

  lemma DispatchFacts(s: Sys)
    requires Reachable(s)
    ensures EdgesKnown(s.view.work.edges, s.view.work.items)
  {
    hide Reachable, AgentsConsistent, RoutesKeyed, NodesKeyed, ItemsKeyed, FindingsKnown, EdgesKnown;
    KnownReferences(s);
  }

  /** Each of the items has exactly one requested or running execution. */
  ghost predicate OneOpenEach(xs: map<Id, Execution>, items: seq<Id>) {
    forall i :: 0 <= i < |items| ==> OpenOnce(xs, items[i])
  }

  ghost predicate OpenOnce(xs: map<Id, Execution>, itemId: Id) {
    exists k :: IsOpenFor(xs, k, itemId) && forall j :: IsOpenFor(xs, j, itemId) ==> j == k
  }

  lemma BatchOpensEach(before: AgentView, after: map<Id, Execution>, items: map<Id, WorkItem>, eligible: seq<Id>,
      plan: seq<Planned>, ids: seq<FreshIds>, names: seq<Option<string>>)
    requires |plan| == |ids| == |names| == |eligible| && forall j :: 0 <= j < |plan| ==> plan[j].itemId in items && plan[j].itemId == eligible[j]
    requires BatchStarted(before.executions, after, items, plan, ids, names, |plan|, {})
    requires forall a, b :: 0 <= a < b < |eligible| ==> eligible[a] != eligible[b]
    requires forall j :: 0 <= j < |eligible| ==> !Busy(before, eligible[j])
    ensures OneOpenEach(after, eligible)
  {
    hide BatchStarted, Busy, IsOpenFor;
    forall i | 0 <= i < |eligible| ensures OpenOnce(after, eligible[i]) {
      forall k ensures IsOpenFor(after, k, eligible[i]) <==> k == ids[i].executionId {
        OneOpenExecution(before, after, items, plan, ids, names, i, k);
      }
      assert IsOpenFor(after, ids[i].executionId, eligible[i]);
    }
  }

  /** What a batch that started as many items as there are names left. */
  ghost predicate BatchLeft(before: map<Id, Execution>, after: map<Id, Execution>, items: map<Id, WorkItem>,
      plan: seq<Planned>, ids: seq<FreshIds>, names: seq<Option<string>>)
  {
    && |plan| == |ids| && |names| <= |plan| && (forall i :: 0 <= i < |plan| ==> plan[i].itemId in items)
    && BatchStarted(before, after, items, plan, ids, names, |names|, if |names| < |plan| then {ids[|names|].executionId} else {})
  }

  lemma PlanItems(w: WorkView, routes: map<Id, RouteSnapshot>, bindings: seq<Binding>, routing: Routing, items: seq<Id>, plan: seq<Planned>)
    requires PlanOf(w, routes, bindings, routing, items, plan)
    ensures |plan| == |items| && forall i :: 0 <= i < |plan| ==> plan[i].itemId == items[i] && plan[i].itemId in w.items
  {
  }

  /** The plane is activated and every eligible item can be planned. */
  ghost predicate Dispatchable(v: View, bindings: seq<Binding>, routing: Routing, eligible: seq<Id>) {
    && v.activation.stage.Activated? && UniqueNodes(bindings) && OnePublished(v.routes)
    && forall id :: id in eligible ==> id in v.work.items && Plannable(v.work, v.routes, bindings, routing, id)
  }

  /** A dispatch selects exactly the eligible items. It is refused before anything is created exactly when the plane is not activated or an item cannot be
      planned. Otherwise it leaves the executions of the items it started and, when the registry covers the recorded
      names, starts them all exactly when the batch fits. */
  ghost predicate Outcome(was: Found, after: map<Id, Execution>, rows: Option<seq<NameRow>>, bindings: seq<Binding>, routing: Routing,
      allowed: Option<set<Id>>, eligible: seq<Id>, ids: seq<FreshIds>, c: Caller, r: Dispatched)
  {
    (forall k :: k in eligible <==> Eligible(was.view.work, was.view.agents, allowed, k))
    && if r.RefusedBefore? then !Dispatchable(was.view, bindings, routing, eligible)
    else
      && Dispatchable(was.view, bindings, routing, eligible)
      && |eligible| <= |ids| && PlanOf(was.view.work, was.view.routes, bindings, routing, eligible, r.plan)
      && BatchLeft(was.view.agents.executions, after, was.view.work.items, r.plan, ids[..|eligible|], r.names)
      && (r.StartedAll? <==> |r.names| == |r.plan|)
      && (was.covered ==> (r.StartedAll? <==> BatchFits(was.view.activation, was.used, rows, r.plan, ids[..|eligible|], c)))
  }

  lemma RefusedOutcome(was: Found, rows: Option<seq<NameRow>>, bindings: seq<Binding>, routing: Routing,
      allowed: Option<set<Id>>, eligible: seq<Id>, ids: seq<FreshIds>, c: Caller)
    requires forall k :: k in eligible <==> Eligible(was.view.work, was.view.agents, allowed, k)
    requires !Dispatchable(was.view, bindings, routing, eligible)
    ensures Outcome(was, was.view.agents.executions, rows, bindings, routing, allowed, eligible, ids, c, RefusedBefore)
  {
    hide Eligible, Dispatchable;
  }

  lemma BatchOutcome(was: Found, after: map<Id, Execution>, rows: Option<seq<NameRow>>, bindings: seq<Binding>, routing: Routing,
      allowed: Option<set<Id>>, eligible: seq<Id>, ids: seq<FreshIds>, c: Caller, plan: seq<Planned>, names: seq<Option<string>>)
    requires forall k :: k in eligible <==> Eligible(was.view.work, was.view.agents, allowed, k)
    requires Dispatchable(was.view, bindings, routing, eligible) && |eligible| == |plan| <= |ids| && |names| <= |plan|
    requires PlanOf(was.view.work, was.view.routes, bindings, routing, eligible, plan)
    requires BatchLeft(was.view.agents.executions, after, was.view.work.items, plan, ids[..|plan|], names)
    requires was.covered ==> FitsUpTo(was, rows, plan, ids[..|plan|], c, |names|)
    ensures |names| < |plan| ==> Outcome(was, after, rows, bindings, routing, allowed, eligible, ids, c, StoppedAfter(plan, names))
    ensures forall delta :: |names| == |plan| ==> Outcome(was, after, rows, bindings, routing, allowed, eligible, ids, c, StartedAll(plan, names, delta))
  {
    hide Eligible, Dispatchable, PlanOf, BatchLeft, FitsInTurn, BatchFits;
    BatchFitsIff(was.view.activation, was.used, rows, plan, ids[..|plan|], c);
  }

  /** Selects the eligible items, plans them all, starts them in order, and takes the event delta for their calls.
      After a started dispatch every eligible item has exactly one open execution. */
  method DispatchReady(kernel: Kernel, registry: AgentNameRegistry?, deltas: DeltaDispatcher, bindings: seq<Binding>, routing: Routing,
      all: seq<Id>, allowed: Option<set<Id>>, ids: seq<FreshIds>, c: Caller)
    returns (r: Dispatched, eligible: seq<Id>)
    requires kernel.Valid() && (registry != null ==> registry.Valid()) && deltas.Valid() && deltas.ledger == kernel.ledger
    requires (forall k :: k in all <==> k in kernel.work.items) && (forall i, j :: 0 <= i < j < |all| ==> all[i] != all[j]) && |all| <= |ids|
    modifies kernel, kernel.ledger, registry, deltas
    ensures kernel.Valid() && (registry != null ==> registry.Valid()) && deltas.Valid()
    ensures r.RefusedBefore? ==> kernel.State() == old(kernel.State())
    ensures Outcome(old(PlaneAt(kernel, registry)), kernel.agents.executions, RowsOf(registry), bindings, routing, allowed, eligible, ids, c, r)
    ensures r.StartedAll? ==> OneOpenEach(kernel.agents.executions, eligible)
    ensures !r.RefusedBefore? ==>
              |r.names| <= |eligible| <= |ids|
              && AllDispatched(old(kernel.Live()), bindings, routing, eligible, ids, kernel.agents.executions, |r.names|)
    ensures r.StartedAll? ==> deltas.called == old(deltas.called) + [eligible != []] && deltas.taken == old(deltas.taken) + [r.delta]
    ensures !r.StartedAll? ==> deltas.taken == old(deltas.taken)
  {
    hide AgentNameRegistry.Valid, Covers, Indexed, Reachable, Eligible, Plannable, BatchStarted, FitsInTurn, UsedIn, Covered, OneOpenEach, BatchFits, PlanOf,
      ItemAccepted, ItemRun, UniqueNodes, OnePublished, FitsUpTo, Startable, Busy, Outcome, AllDispatched;
    KernelFacts(kernel);
    ghost var was := PlaneAt(kernel, registry);
    eligible := EligibleItems(kernel.work, kernel.agents, all, allowed);
    if !kernel.activation.stage.Activated? {
      RefusedOutcome(was, RowsOf(registry), bindings, routing, allowed, eligible, ids, c);
      return RefusedBefore, eligible;
    }
    forall id | id in eligible ensures id in kernel.work.items && !Busy(kernel.agents, id) {
      EligibleKnown(kernel.work, kernel.agents, allowed, id);
    }
    DistinctFew(all, eligible);
    var planned := PlanBatch(kernel.work, kernel.routes, eligible, bindings, routing);
    if planned.Err? {
      RefusedOutcome(was, RowsOf(registry), bindings, routing, allowed, eligible, ids, c);
      return RefusedBefore, eligible;
    }
    var plan := planned.value;
    ghost var agents := kernel.agents;
    PlanItems(kernel.work, kernel.routes, bindings, routing, eligible, plan);
    ghost var log := kernel.ledger.events;
    var names, reached, issued := StartBatch(kernel, registry, plan, ids[..|eligible|], c);
    DeltasGrow(deltas, log);
    assert ids[..|eligible|] == ids[..|plan|];
    BatchOutcome(was, kernel.agents.executions, RowsOf(registry), bindings, routing, allowed, eligible, ids, c, plan, names);
    BatchDispatched(was.view, bindings, routing, eligible, plan, ids, names, kernel.agents.executions);
    if |names| < |plan| {
      return StoppedAfter(plan, names), eligible;
    }
    BatchOpensEach(agents, kernel.agents.executions, kernel.work.items, eligible, plan, ids[..|eligible|], names);
    var delta := deltas.TakeDelta(eligible != []);
    return StartedAll(plan, names, delta.value), eligible;
  }
}
