/** Applying a validated response to the Kernel: the commands it sends, where it stops and why. */
module InterfaceApply {
  import opened Models
  import opened Events
  import opened Ledger
  import opened Views
  import opened Commands
  import opened Consistency
  import opened KernelService
  import opened Runs
  import opened Acceptance
  import opened WorkRules
  import opened Witness
  import opened Graph
  import opened InterfaceActions

  // ---- the commands of a response

  function CallerFor(c: Caller, a: Action, suffix: string): Caller {
    c.(key := "interface:" + a.actionId + suffix)
  }

  /** The command that adds one dependency of a creation. */
  function DependencyStep(c: Caller, a: Action, dependency: Id): Step
    requires a.CreateWork?
  {
    StepBy(CallerFor(c, a, ":depends:" + dependency), a.item.workItemId,
           WorkDependencyAdded(WorkEdge(a.item.workItemId, dependency, DependsOn)), Human, NoContext)
  }

  function DependencySteps(c: Caller, a: Action, n: nat): seq<Step>
    requires a.CreateWork? && n <= |a.dependsOn|
  {
    if n == 0 then [] else DependencySteps(c, a, n - 1) + [DependencyStep(c, a, a.dependsOn[n - 1])]
  }

  /** The Kernel commands of one action, in order; decisions, commitments and selections send none. */
  function StepsOf(c: Caller, a: Action): seq<Step> {
    match a
    case CreateWork(_, item, dependsOn) =>
      [StepBy(CallerFor(c, a, ":create"), item.workItemId, WorkItemCreated(item), Human, NoContext)] + DependencySteps(c, a, |dependsOn|)
    case Delegate(_, id, nodeId) => [StepBy(CallerFor(c, a, ":delegate"), id, WorkItemDelegated(nodeId), Human, NoContext)]
    case Plan(_, lease) => [StepBy(CallerFor(c, a, ":effect"), lease.leaseId, EffectPlanned(lease), Pilot, NoContext)]
    case Complete(_, id, evidence) => [StepBy(CallerFor(c, a, ":completion"), id, WorkItemCompleted(evidence), Human, NoContext)]
    case _ => []
  }

  /** Which commands an action sends, under which keys. */
  lemma CommandsOf(c: Caller, a: Action)
    ensures var steps := StepsOf(c, a);
            && (forall i :: 0 <= i < |steps| ==> steps[i].actorId == Some(c.actorId))
            && match a
               case CreateWork(actionId, item, dependsOn) =>
                 && |steps| == 1 + |dependsOn| && steps[0].streamId == item.workItemId && steps[0].body == WorkItemCreated(item)
                 && steps[0].actorType.Human? && steps[0].key == "interface:" + actionId + ":create"
                 && (forall j :: 0 <= j < |dependsOn| ==>
                       && steps[j + 1].streamId == item.workItemId && steps[j + 1].actorType.Human?
                       && steps[j + 1].body == WorkDependencyAdded(WorkEdge(item.workItemId, dependsOn[j], DependsOn))
                       && steps[j + 1].key == "interface:" + actionId + (":depends:" + dependsOn[j]))
               case Delegate(actionId, id, nodeId) =>
                 && |steps| == 1 && steps[0].streamId == id && steps[0].body == WorkItemDelegated(nodeId) && steps[0].actorType.Human?
                 && steps[0].key == "interface:" + actionId + ":delegate"
               case Plan(actionId, lease) =>
                 && |steps| == 1 && steps[0].streamId == lease.leaseId && steps[0].body == EffectPlanned(lease) && steps[0].actorType.Pilot?
                 && steps[0].key == "interface:" + actionId + ":effect"
               case Complete(actionId, id, evidence) =>
                 && |steps| == 1 && steps[0].streamId == id && steps[0].body == WorkItemCompleted(evidence) && steps[0].actorType.Human?
                 && steps[0].key == "interface:" + actionId + ":completion"
               case _ => steps == []
  {
    if a.CreateWork? {
      DependencyLength(c, a, |a.dependsOn|);
      forall j | 0 <= j < |a.dependsOn| ensures DependencySteps(c, a, |a.dependsOn|)[j] == DependencyStep(c, a, a.dependsOn[j]) {
        DependencyStepsAt(c, a, |a.dependsOn|, j);
      }
    }
  }

  function AllSteps(c: Caller, actions: seq<Action>): seq<Step> {
    if actions == [] then [] else AllSteps(c, actions[..|actions| - 1]) + StepsOf(c, actions[|actions| - 1])
  }

  /** A pilot selection names the route of its item in the live plane. */
  predicate SelectionFits(items: map<Id, WorkItem>, a: Action)
    requires a.SelectPilot?
  {
    a.selectedId in items && items[a.selectedId].routeKey == a.routeKey
  }

  lemma SelectionMeans(items: map<Id, WorkItem>, a: Action)
    requires a.SelectPilot?
    ensures !SelectionFits(items, a) <==> a.selectedId !in items || items[a.selectedId].routeKey != a.routeKey
  {
  }

  /** Where an application stops: at the `k`-th command of action `i`, or at a selection. */
  datatype Stop = AtStep(i: nat, k: nat) | AtSelection(i: nat)

  lemma {:induction false} DependencyStepsAt(c: Caller, a: Action, n: nat, j: nat)
    requires a.CreateWork? && j < n <= |a.dependsOn|
    ensures |DependencySteps(c, a, n)| == n && DependencySteps(c, a, n)[j] == DependencyStep(c, a, a.dependsOn[j])
    ensures DependencySteps(c, a, n)[..j] == DependencySteps(c, a, j)
  {
    hide DependencyStep, DependencySteps;
    NextSteps(c, a, n - 1);
    if j < n - 1 {
      DependencyStepsAt(c, a, n - 1, j);
    } else if n == 1 {
      NoSteps(c, a);
    } else {
      DependencyStepsAt(c, a, n - 1, n - 2);
    }
  }

  // ---- applying

  /** A command answered by the Kernel extends the run by one. */
  lemma Ran(s: Sys, steps: seq<Step>, step: Step, ok: bool, next: Sys)
    requires AllAccepted(s, steps) && Did(ok, Run(s, steps), step, next)
    ensures ok ==> AllAccepted(s, steps + [step]) && next == Run(s, steps + [step])
    ensures !ok ==> next == Run(s, steps) && !Accepted(next, step)
  {
    hide Accepted, Run, AllAccepted, Handle;
    RunSnoc(s, steps, step);
  }

  /** Sends the first `n` commands of a sequence and answers the first that the Kernel refuses. */
  ghost predicate Sent(s: Sys, steps: seq<Step>, refused: Option<nat>, next: Sys) {
    match refused
    case None => AllAccepted(s, steps) && next == Run(s, steps)
    case Some(k) => k < |steps| && AllAccepted(s, steps[..k]) && next == Run(s, steps[..k]) && !Accepted(next, steps[k])
  }

  /** Adds the dependencies of a created item one by one, up to the first that the Kernel refuses. */
  method AddDependencies(kernel: Kernel, a: Action, c: Caller) returns (refused: Option<nat>)
    requires kernel.Valid() && a.CreateWork?
    modifies kernel, kernel.ledger
    ensures kernel.Valid()
    ensures Sent(old(kernel.State()), DependencySteps(c, a, |a.dependsOn|), refused, kernel.State())
  {
    hide Kernel.Valid, Did, Run, AllAccepted, Accepted, DependencySteps;
    ghost var s := kernel.State();
    NothingRun(s);
    NoSteps(c, a);
    for j := 0 to |a.dependsOn|
      invariant kernel.Valid()
      invariant AllAccepted(s, DependencySteps(c, a, j)) && kernel.State() == Run(s, DependencySteps(c, a, j))
    {
      var d := a.dependsOn[j];
      var ok := kernel.AddDependency(a.item.workItemId, d, CallerFor(c, a, ":depends:" + d));
      Ran(s, DependencySteps(c, a, j), DependencyStep(c, a, d), ok, kernel.State());
      NextSteps(c, a, j);
      if !ok {
        DependencyStepsAt(c, a, |a.dependsOn|, j);
        return Some(j);
      }
    }
    return None;
  }

  lemma NoSteps(c: Caller, a: Action)
    requires a.CreateWork?
    ensures DependencySteps(c, a, 0) == []
  {
  }

  lemma NextSteps(c: Caller, a: Action, j: nat)
    requires a.CreateWork? && j < |a.dependsOn|
    ensures DependencySteps(c, a, j + 1) == DependencySteps(c, a, j) + [DependencyStep(c, a, a.dependsOn[j])]
  {
  }

  lemma OneSent(ok: bool, s: Sys, step: Step, next: Sys)
    requires Did(ok, s, step, next)
    ensures Sent(s, [step], if ok then None else Some(0), next)
  {
    hide Accepted, Run, AllAccepted, Handle, Did;
    NothingRun(s);
    Ran(s, [], step, ok, next);
    assert [] + [step] == [step] && [step][..0] == [];
  }

  lemma CreationSent(s: Sys, first: Step, mid: Sys, rest: seq<Step>, refused: Option<nat>, next: Sys)
    requires Sent(s, [first], None, mid) && Sent(mid, rest, refused, next)
    ensures Sent(s, [first] + rest, if refused.None? then None else Some(refused.value + 1), next)
  {
    hide Accepted, Run, AllAccepted;
    match refused
    case None => RunConcat(s, [first], rest);
    case Some(k) =>
      RunConcat(s, [first], rest[..k]);
      assert ([first] + rest)[..k + 1] == [first] + rest[..k];
  }

  lemma CreationRefused(s: Sys, first: Step, rest: seq<Step>, next: Sys)
    requires Sent(s, [first], Some(0), next)
    ensures Sent(s, [first] + rest, Some(0), next)
  {
    hide Accepted, Run, AllAccepted;
    assert ([first] + rest)[..0] == [first][..0];
  }

  /** Sends the commands of one action. */
  method ApplyAction(kernel: Kernel, a: Action, c: Caller) returns (refused: Option<nat>)
    requires kernel.Valid()
    modifies kernel, kernel.ledger
    ensures kernel.Valid()
    ensures Sent(old(kernel.State()), StepsOf(c, a), refused, kernel.State())
  {
    hide Kernel.Valid, Did, Sent, DependencySteps;
    ghost var s := kernel.State();
    match a
    case CreateWork(_, item, dependsOn) =>
      var ok := kernel.CreateWorkItem(item, CallerFor(c, a, ":create"));
      ghost var first := StepBy(CallerFor(c, a, ":create"), item.workItemId, WorkItemCreated(item), Human, NoContext);
      ghost var mid := kernel.State();
      OneSent(ok, s, first, mid);
      if !ok {
        CreationRefused(s, first, DependencySteps(c, a, |dependsOn|), mid);
        return Some(0);
      }
      var stop := AddDependencies(kernel, a, c);
      CreationSent(s, first, mid, DependencySteps(c, a, |dependsOn|), stop, kernel.State());
      return if stop.None? then None else Some(stop.value + 1);
    case Delegate(_, id, nodeId) =>
      var ok := kernel.DelegateWorkItem(id, nodeId, CallerFor(c, a, ":delegate"));
      OneSent(ok, s, StepsOf(c, a)[0], kernel.State());
      return if ok then None else Some(0);
    case Plan(_, lease) =>
      var ok := kernel.PlanEffect(lease, CallerFor(c, a, ":effect"));
      OneSent(ok, s, StepsOf(c, a)[0], kernel.State());
      return if ok then None else Some(0);
    case Complete(_, id, evidence) =>
      var ok := kernel.CompleteWorkItem(id, evidence, CallerFor(c, a, ":completion"));
      OneSent(ok, s, StepsOf(c, a)[0], kernel.State());
      return if ok then None else Some(0);
    case _ =>
      NoneSent(s);
      return None;
  }

  lemma NoneSent(s: Sys)
    ensures Sent(s, [], None, s)
  {
    hide Accepted, Run, AllAccepted;
    NothingRun(s);
  }

  /** Every selection names a route that fits when its turn comes. */
  ghost predicate SelectionsFit(s: Sys, c: Caller, actions: seq<Action>) {
    forall i :: 0 <= i < |actions| && actions[i].SelectPilot? ==> SelectionFits(Run(s, AllSteps(c, actions[..i])).view.work.items, actions[i])
  }

  /** The application stopped at `stop` in state `next`, having sent everything before it. */
  ghost predicate StoppedAt(s: Sys, c: Caller, actions: seq<Action>, stop: Stop, next: Sys) {
    match stop
    case AtStep(i, k) => (
      && i < |actions| && k < |StepsOf(c, actions[i])|
      && var before := AllSteps(c, actions[..i]) + StepsOf(c, actions[i])[..k];
         AllAccepted(s, before) && next == Run(s, before) && !Accepted(next, StepsOf(c, actions[i])[k]))
    case AtSelection(i) =>
      && i < |actions| && actions[i].SelectPilot?
      && AllAccepted(s, AllSteps(c, actions[..i])) && next == Run(s, AllSteps(c, actions[..i]))
      && !SelectionFits(next.view.work.items, actions[i])
  }

  /** Applies a response action by action. It completes exactly when every command is accepted in turn and every
      selection fits; otherwise it stops at the first that is not, having sent exactly what comes before. */
  method ApplyActions(kernel: Kernel, actions: seq<Action>, c: Caller) returns (stopped: Option<Stop>)
    requires kernel.Valid()
    modifies kernel, kernel.ledger
    ensures kernel.Valid()
    ensures stopped.None? <==> AllAccepted(old(kernel.State()), AllSteps(c, actions)) && SelectionsFit(old(kernel.State()), c, actions)
    ensures stopped.None? ==> kernel.State() == Run(old(kernel.State()), AllSteps(c, actions))
    ensures stopped.Some? ==> StoppedAt(old(kernel.State()), c, actions, stopped.value, kernel.State())
  {
    hide Kernel.Valid, Run, AllAccepted, Accepted, StepsOf, AllSteps, SelectionFits;
    ghost var s := kernel.State();
    NothingRun(s);
    NoActions(c, actions);
    for n := 0 to |actions|
      invariant kernel.Valid()
      invariant AllAccepted(s, AllSteps(c, actions[..n])) && kernel.State() == Run(s, AllSteps(c, actions[..n]))
      invariant forall i :: 0 <= i < n && actions[i].SelectPilot? ==> SelectionFits(Run(s, AllSteps(c, actions[..i])).view.work.items, actions[i])
    {
      var a := actions[n];
      if a.SelectPilot? {
        if !SelectionFits(kernel.work.items, a) {
          return Some(AtSelection(n));
        }
      }
      ghost var mid := kernel.State();
      var refused := ApplyAction(kernel, a, c);
      SentAfter(s, c, actions, n, mid, refused, kernel.State());
      if refused.Some? {
        return Some(AtStep(n, refused.value));
      }
    }
    assert actions[..|actions|] == actions;
    return None;
  }

  lemma NoActions(c: Caller, actions: seq<Action>)
    ensures AllSteps(c, actions[..0]) == []
  {
  }

  lemma NextActions(c: Caller, actions: seq<Action>, n: nat)
    requires n < |actions|
    ensures AllSteps(c, actions[..n + 1]) == AllSteps(c, actions[..n]) + StepsOf(c, actions[n])
  {
    assert actions[..n + 1][..n] == actions[..n];
  }

  /** A longer response starts with the commands of a shorter one. */
  lemma {:induction false} StepsPrefix(c: Caller, actions: seq<Action>, n: nat) returns (rest: seq<Step>)
    requires n <= |actions|
    ensures AllSteps(c, actions) == AllSteps(c, actions[..n]) + rest
    decreases |actions|
  {
    hide StepsOf;
    if n == |actions| {
      assert actions[..n] == actions;
      rest := [];
    } else {
      var front := actions[..|actions| - 1];
      var more := StepsPrefix(c, front, n);
      assert front[..n] == actions[..n];
      rest := more + StepsOf(c, actions[|actions| - 1]);
    }
  }

  lemma SentAfter(s: Sys, c: Caller, actions: seq<Action>, n: nat, mid: Sys, refused: Option<nat>, next: Sys)
    requires n < |actions| && AllAccepted(s, AllSteps(c, actions[..n])) && mid == Run(s, AllSteps(c, actions[..n]))
    requires Sent(mid, StepsOf(c, actions[n]), refused, next)
    ensures refused.None? ==> AllAccepted(s, AllSteps(c, actions[..n + 1])) && next == Run(s, AllSteps(c, actions[..n + 1]))
    ensures refused.Some? ==> StoppedAt(s, c, actions, AtStep(n, refused.value), next) && !AllAccepted(s, AllSteps(c, actions))
  {
    hide Run, AllAccepted, Accepted, StepsOf, AllSteps;
    var before, own := AllSteps(c, actions[..n]), StepsOf(c, actions[n]);
    match refused
    case None =>
      NextActions(c, actions, n);
      RunConcat(s, before, own);
    case Some(k) =>
      RunConcat(s, before, own[..k]);
      NextActions(c, actions, n);
      var rest := StepsPrefix(c, actions, n + 1);
      var all := before + own[..k];
      assert AllSteps(c, actions) == (all + [own[k]]) + (own[k + 1..] + rest);
      RunSnoc(s, all, own[k]);
      RunConcat(s, all + [own[k]], own[k + 1..] + rest);
  }

  // ---- why it stops

  /** The same item up to its delegate and its progress. */
  predicate SameItem(a: WorkItem, b: WorkItem) {
    a == b.(state := a.state, evidence := a.evidence, delegatedToNodeId := a.delegatedToNodeId)
  }

  /** The live graph after the commands of a response: items as projected up to their progress, and no edge forgotten. */
  ghost predicate Mirrors(w: WorkView, work: map<Id, WorkItem>, edges: Edges) {
    && w.items.Keys == work.Keys
    && (forall k :: k in work ==> SameItem(w.items[k], work[k]))
    && Dependencies(w.edges) == edges
  }

  lemma WorkAfter(w: WorkView, e: Event, next: WorkView)
    requires ApplyWork(w, e) == Ok(next)
    requires e.body.WorkItemCreated? || e.body.WorkDependencyAdded? || e.body.WorkItemDelegated? || e.body.WorkItemCompleted?
    ensures next.items.Keys == w.items.Keys + (if e.body.WorkItemCreated? then {e.body.workItem.workItemId} else {})
    ensures e.body.WorkItemDelegated? ==> e.streamId in w.items
    ensures forall k :: k in next.items ==>
              SameItem(next.items[k], if e.body.WorkItemCreated? && k == e.body.workItem.workItemId then e.body.workItem else w.items[k])
    ensures next.edges == w.edges + NewEdges(e.body)
  {
  }

  lemma NewDependencies(b: EventBody)
    requires b.WorkItemCreated? || b.WorkDependencyAdded? || b.WorkItemDelegated? || b.WorkItemCompleted?
    ensures Dependencies(NewEdges(b)) == if b.WorkDependencyAdded? && b.edge.kind.DependsOn? then {(b.edge.source, b.edge.target)} else {}
  {
    match b
    case WorkItemCreated(w) => ParentEdgesAreNoDependencies(w);
    case WorkDependencyAdded(e) =>
      if e.kind.DependsOn? { OneDependency(e); }
    case _ =>
  }

  /** The projected items after one command. */
  function WorkNext(work: map<Id, WorkItem>, b: EventBody): map<Id, WorkItem> {
    if b.WorkItemCreated? then work[b.workItem.workItemId := b.workItem] else work
  }

  predicate OwnerCommand(b: EventBody) {
    b.WorkItemCreated? || b.WorkDependencyAdded? || b.WorkItemDelegated? || b.WorkItemCompleted? || b.EffectPlanned?
  }

  /** The dependency that one command adds. */
  function EdgeOf(b: EventBody): Edges {
    if b.WorkDependencyAdded? && b.edge.kind.DependsOn? then {(b.edge.source, b.edge.target)} else {}
  }

  lemma MirrorsNext(w: WorkView, e: Event, next: WorkView, work: map<Id, WorkItem>, edges: Edges)
    requires ApplyWork(w, e) == Ok(next) && Mirrors(w, work, edges)
    requires e.body.WorkItemCreated? || e.body.WorkDependencyAdded? || e.body.WorkItemDelegated? || e.body.WorkItemCompleted?
    ensures Mirrors(next, WorkNext(work, e.body), edges + EdgeOf(e.body))
    ensures e.body.WorkItemDelegated? ==> e.streamId in work
  {
    hide ApplyWork, Dependencies;
    WorkAfter(w, e, next);
    DependenciesConcat(w.edges, NewEdges(e.body));
    NewDependencies(e.body);
  }

  lemma CommandMirrors(s: Sys, step: Step, work: map<Id, WorkItem>, edges: Edges)
    requires Reachable(s) && Accepted(s, step) && OwnerCommand(step.body) && Mirrors(s.view.work, work, edges)
    ensures Mirrors(Exec(s, step).view.work, WorkNext(work, step.body), edges + EdgeOf(step.body))
    ensures step.body.WorkItemDelegated? ==> step.streamId in work
  {
    hide Reachable, Accepted, Moves, Exec, AdmitsWork, ApplyWork, Mirrors;
    AcceptedMoves(s, step);
    WorkMove(s, step, Exec(s, step));
    if step.body.EffectPlanned? {
      assert edges + {} == edges;
    } else {
      MirrorsNext(s.view.work, EventOf(s.view, step), Exec(s, step).view.work, work, edges);
    }
  }

  /** The state after the creation of an action and its first `n` dependencies. */
  lemma {:induction false} DependenciesMirror(s: Sys, c: Caller, a: Action, n: nat, work: map<Id, WorkItem>, edges: Edges)
    requires a.CreateWork? && n <= |a.dependsOn| && Reachable(s)
    requires AllAccepted(s, DependencySteps(c, a, n)) && Mirrors(s.view.work, work, edges)
    ensures Mirrors(Run(s, DependencySteps(c, a, n)).view.work, work, edges + EdgesFrom(a.item.workItemId, a.dependsOn[..n]))
  {
    hide Reachable, Accepted, Run, AllAccepted, Exec, DependencySteps, Mirrors;
    if n == 0 {
      NoSteps(c, a);
      NothingRun(s);
      assert edges + EdgesFrom(a.item.workItemId, a.dependsOn[..0]) == edges;
    } else {
      NextSteps(c, a, n - 1);
      var front, step := DependencySteps(c, a, n - 1), DependencyStep(c, a, a.dependsOn[n - 1]);
      RunSnoc(s, front, step);
      DependenciesMirror(s, c, a, n - 1, work, edges);
      RunStaysReachable(s, front);
      CommandMirrors(Run(s, front), step, work, edges + EdgesFrom(a.item.workItemId, a.dependsOn[..n - 1]));
      EdgesFromSnoc(a.item.workItemId, a.dependsOn, n);
      assert edges + EdgesFrom(a.item.workItemId, a.dependsOn[..n])
        == edges + EdgesFrom(a.item.workItemId, a.dependsOn[..n - 1]) + {(a.item.workItemId, a.dependsOn[n - 1])};
    }
  }

  lemma EdgesFromSnoc(id: Id, targets: seq<Id>, n: nat)
    requires 1 <= n <= |targets|
    ensures EdgesFrom(id, targets[..n]) == EdgesFrom(id, targets[..n - 1]) + {(id, targets[n - 1])}
  {
    forall e | e in EdgesFrom(id, targets[..n]) ensures e in EdgesFrom(id, targets[..n - 1]) + {(id, targets[n - 1])} {
      var j :| 0 <= j < n && e == (id, targets[..n][j]);
      if j < n - 1 { assert targets[..n - 1][j] == targets[..n][j]; }
    }
    forall e | e in EdgesFrom(id, targets[..n - 1]) ensures e in EdgesFrom(id, targets[..n]) {
      var j :| 0 <= j < n - 1 && e == (id, targets[..n - 1][j]);
      assert targets[..n][j] == targets[..n - 1][j];
    }
    assert targets[..n][n - 1] == targets[n - 1];
  }

  /** The state after the creation itself and the first `n` dependencies, from the state before the action. */
  lemma CreationMirrors(s: Sys, c: Caller, a: Action, n: nat, work: map<Id, WorkItem>, edges: Edges)
    requires a.CreateWork? && n <= |a.dependsOn| && Reachable(s) && Mirrors(s.view.work, work, edges)
    requires AllAccepted(s, [StepsOf(c, a)[0]] + DependencySteps(c, a, n))
    ensures Mirrors(Run(s, [StepsOf(c, a)[0]] + DependencySteps(c, a, n)).view.work, work[a.item.workItemId := a.item],
                    edges + EdgesFrom(a.item.workItemId, a.dependsOn[..n]))
  {
    hide Reachable, Accepted, Run, AllAccepted, Exec, DependencySteps, Mirrors;
    var first := StepsOf(c, a)[0];
    RunConcat(s, [first], DependencySteps(c, a, n));
    OneRun(s, first);
    CommandMirrors(s, first, work, edges);
    assert edges + {} == edges;
    RunStaysReachable(s, [first]);
    DependenciesMirror(Run(s, [first]), c, a, n, work[a.item.workItemId := a.item], edges);
  }

  lemma OneRun(s: Sys, step: Step)
    ensures Run(s, [step]) == Exec(s, step) && (AllAccepted(s, [step]) <==> Accepted(s, step))
  {
    hide Accepted, Exec, Run, AllAccepted;
    NothingRun(s);
    RunSnoc(s, [], step);
    assert [] + [step] == [step];
  }

  lemma ActionMirrors(s: Sys, c: Caller, a: Action, work: map<Id, WorkItem>, edges: Edges)
    requires Reachable(s) && Mirrors(s.view.work, work, edges) && AllAccepted(s, StepsOf(c, a))
    ensures Mirrors(Run(s, StepsOf(c, a)).view.work, ProjectedNext(work, a),
                    edges + (if a.CreateWork? then EdgesFrom(a.item.workItemId, a.dependsOn) else {}))
  {
    hide Reachable, Accepted, Run, AllAccepted, Exec, DependencySteps;
    assert edges + {} == edges;
    if a.CreateWork? {
      assert a.dependsOn[..|a.dependsOn|] == a.dependsOn;
      CreationMirrors(s, c, a, |a.dependsOn|, work, edges);
    } else if StepsOf(c, a) == [] {
      NothingRun(s);
    } else {
      OneRun(s, StepsOf(c, a)[0]);
      CommandMirrors(s, StepsOf(c, a)[0], work, edges);
    }
  }

  /** After the commands of the first `n` actions the live graph has the projected items, and all the
      dependencies that the actions added. */
  lemma {:induction false} PrefixMirrors(s: Sys, c: Caller, actions: seq<Action>, n: nat)
    requires Reachable(s) && n <= |actions| && AllAccepted(s, AllSteps(c, actions[..n]))
    ensures Mirrors(Run(s, AllSteps(c, actions[..n])).view.work, ProjectedWork(s.view.work, actions[..n]),
                    Dependencies(s.view.work.edges) + AddedEdges(actions[..n]))
  {
    hide Reachable, Accepted, Run, AllAccepted, Exec, StepsOf, AllSteps, Mirrors, ProjectedWork, ProjectedNext, AddedEdges, Dependencies;
    var w := s.view.work;
    if n == 0 {
      NoActions(c, actions);
      NothingRun(s);
      ProjectedNone(w, actions);
      assert Mirrors(w, w.items, Dependencies(w.edges)) by { MirrorsItself(w); }
      assert AddedEdges(actions[..0]) == {} by { NoneAdded(actions); }
      assert Dependencies(w.edges) + {} == Dependencies(w.edges);
    } else {
      NextActions(c, actions, n - 1);
      var before, a := AllSteps(c, actions[..n - 1]), actions[n - 1];
      RunConcat(s, before, StepsOf(c, a));
      PrefixMirrors(s, c, actions, n - 1);
      RunStaysReachable(s, before);
      ActionMirrors(Run(s, before), c, a, ProjectedWork(w, actions[..n - 1]), Dependencies(w.edges) + AddedEdges(actions[..n - 1]));
      assert actions[..n] == actions[..n - 1] + [a];
      ProjectedSnoc(w, actions[..n - 1], a);
      AddedSnoc(actions[..n]);
      assert actions[..n][..n - 1] == actions[..n - 1];
      assert Dependencies(w.edges) + AddedEdges(actions[..n])
        == Dependencies(w.edges) + AddedEdges(actions[..n - 1]) + (if a.CreateWork? then EdgesFrom(a.item.workItemId, a.dependsOn) else {});
    }
  }

  lemma MirrorsItself(w: WorkView)
    ensures Mirrors(w, w.items, Dependencies(w.edges))
  {
  }

  lemma NoneAdded(actions: seq<Action>)
    ensures AddedEdges(actions[..0]) == {}
  {
  }

  /** In a validated response a selection always fits when its turn comes: the application never stops at one. */
  lemma SelectionsPass(s: Sys, known: set<Id>, c: Caller, actions: seq<Action>, now: Time, i: nat)
    requires Reachable(s) && Validated(s.view, known, actions, now) && i < |actions| && actions[i].SelectPilot?
    requires AllAccepted(s, AllSteps(c, actions[..i]))
    ensures SelectionFits(Run(s, AllSteps(c, actions[..i])).view.work.items, actions[i])
  {
    hide Reachable, Accepted, Run, AllAccepted, AllSteps, ProjectedWork, Dependencies, AddedEdges, Acyclic, ProjectedDeps;
    PrefixMirrors(s, c, actions, i);
    assert ActionOk(s.view, DecisionIds(known, actions), ProjectedWork(s.view.work, actions[..i]), actions[i], now);
  }

  /** A dependency of a graph that ends acyclic passes the Kernel's graph checks on the way there. */
  lemma OnTheWayAddable(w: WorkView, id: Id, dependency: Id, goal: Edges)
    requires Acyclic(goal) && Dependencies(w.edges) <= goal && (id, dependency) in goal
    requires id in w.items && dependency in w.items
    ensures Addable(w, id, dependency)
  {
    hide Acyclic, Dependencies;
    if id == dependency || Reaches(Dependencies(w.edges), dependency, id) {
      ReachesSelf(goal, id);
      if id != dependency {
        Monotone(Dependencies(w.edges), goal, dependency, id);
      }
      assert ReachesLater(goal, id, id);
      NoCycleAt(goal, id);
    }
  }

  lemma AddableAdmits(v: View, c: Caller, a: Action, d: Id)
    requires a.CreateWork? && Addable(v.work, a.item.workItemId, d)
    ensures Admits(v, DependencyStep(c, a, d)) <==> WorkEdge(a.item.workItemId, d, DependsOn) !in v.work.edges
  {
    hide Reaches, Dependencies, AdmitsAgents, AdmitsEffects, AdmitsRoutes, AdmitsActivation;
  }

  /** The commands sent before the `j`-th dependency of action `i`. */
  function Before(c: Caller, actions: seq<Action>, i: nat, j: nat): seq<Step>
    requires i < |actions| && actions[i].CreateWork? && j <= |actions[i].dependsOn|
  {
    AllSteps(c, actions[..i]) + ([StepsOf(c, actions[i])[0]] + DependencySteps(c, actions[i], j))
  }

  /** The live graph when the turn of the `j`-th dependency of action `i` comes. */
  lemma MirrorsBefore(s: Sys, c: Caller, actions: seq<Action>, i: nat, j: nat)
    requires Reachable(s) && i < |actions| && actions[i].CreateWork? && j <= |actions[i].dependsOn|
    requires AllAccepted(s, Before(c, actions, i, j))
    ensures var a := actions[i];
            Mirrors(Run(s, Before(c, actions, i, j)).view.work, ProjectedWork(s.view.work, actions[..i])[a.item.workItemId := a.item],
                    Dependencies(s.view.work.edges) + AddedEdges(actions[..i]) + EdgesFrom(a.item.workItemId, a.dependsOn[..j]))
  {
    hide Reachable, Accepted, Run, AllAccepted, AllSteps, DependencySteps, Mirrors, ProjectedWork, Dependencies, AddedEdges, EdgesFrom;
    var a, own := actions[i], [StepsOf(c, actions[i])[0]] + DependencySteps(c, actions[i], j);
    RunConcat(s, AllSteps(c, actions[..i]), own);
    PrefixMirrors(s, c, actions, i);
    RunStaysReachable(s, AllSteps(c, actions[..i]));
    CreationMirrors(Run(s, AllSteps(c, actions[..i])), c, a, j, ProjectedWork(s.view.work, actions[..i]),
                    Dependencies(s.view.work.edges) + AddedEdges(actions[..i]));
  }

  lemma EdgesFromPrefix(id: Id, targets: seq<Id>, j: nat)
    requires j <= |targets|
    ensures EdgesFrom(id, targets[..j]) <= EdgesFrom(id, targets)
    ensures forall k :: 0 <= k < j ==> (id, targets[k]) in EdgesFrom(id, targets[..j])
  {
    forall k | 0 <= k < j ensures targets[..j][k] == targets[k] { }
  }

  lemma AddedWithin(actions: seq<Action>, n: nat)
    requires n < |actions|
    ensures AddedEdges(actions[..n]) <= AddedEdges(actions)
    ensures actions[n].CreateWork? ==> EdgesFrom(actions[n].item.workItemId, actions[n].dependsOn) <= AddedEdges(actions)
  {
    forall e | e in AddedEdges(actions[..n]) ensures e in AddedEdges(actions) {
      var i, j :| 0 <= i < n && actions[..n][i].CreateWork? && 0 <= j < |actions[..n][i].dependsOn|
        && e == (actions[..n][i].item.workItemId, actions[..n][i].dependsOn[j]);
      assert actions[..n][i] == actions[i];
    }
  }

  /** For a validated response that accumulates to an acyclic graph: when the turn of a dependency comes, it names
      known and distinct items and closes no cycle. The Kernel refuses it exactly when the edge exists already, its
      key was used, or the stream is the activation service's. */
  lemma DependencyRefusedIff(s: Sys, known: set<Id>, c: Caller, actions: seq<Action>, now: Time, i: nat, j: nat)
    requires Reachable(s) && Validated(s.view, known, actions, now) && Acyclic(Accumulated(s.view.work, actions))
    requires i < |actions| && actions[i].CreateWork? && j < |actions[i].dependsOn| && AllAccepted(s, Before(c, actions, i, j))
    ensures var t, a, d := Run(s, Before(c, actions, i, j)), actions[i], actions[i].dependsOn[j];
            && Addable(t.view.work, a.item.workItemId, d)
            && (!Accepted(t, DependencyStep(c, a, d)) <==>
                  || WorkEdge(a.item.workItemId, d, DependsOn) in t.view.work.edges
                  || KeyUsed(t.log, DependencyStep(c, a, d).key)
                  || !OwnStream(t.view, DependencyStep(c, a, d)))
  {
    hide Reachable, Accepted, Run, AllAccepted, AllSteps, StepsOf, DependencySteps, ProjectedWork, ProjectedDeps, Dependencies, AddedEdges,
      EdgesFrom, Acyclic, Admits, OwnStream, KeyUsed, Addable, Before, DependencyStep;
    var t, a, d := Run(s, Before(c, actions, i, j)), actions[i], actions[i].dependsOn[j];
    MirrorsBefore(s, c, actions, i, j);
    AddedWithin(actions, i);
    EdgesFromPrefix(a.item.workItemId, a.dependsOn, j);
    EdgesFromPrefix(a.item.workItemId, a.dependsOn, |a.dependsOn|);
    assert a.dependsOn[..|a.dependsOn|] == a.dependsOn;
    assert ActionOk(s.view, DecisionIds(known, actions), ProjectedWork(s.view.work, actions[..i]), a, now);
    OnTheWayAddable(t.view.work, a.item.workItemId, d, Accumulated(s.view.work, actions));
    AddableAdmits(t.view, c, a, d);
    RunStaysReachable(s, Before(c, actions, i, j));
    AcceptedIff(t, DependencyStep(c, a, d));
  }

  lemma StopIsBefore(c: Caller, actions: seq<Action>, i: nat, k: nat)
    requires i < |actions| && actions[i].CreateWork? && 1 <= k < |StepsOf(c, actions[i])|
    ensures k - 1 < |actions[i].dependsOn|
    ensures AllSteps(c, actions[..i]) + StepsOf(c, actions[i])[..k] == Before(c, actions, i, k - 1)
    ensures StepsOf(c, actions[i])[k] == DependencyStep(c, actions[i], actions[i].dependsOn[k - 1])
  {
    hide AllSteps, DependencySteps, DependencyStep;
    var a := actions[i];
    DependencyLength(c, a, |a.dependsOn|);
    DependencyStepsAt(c, a, |a.dependsOn|, k - 1);
    assert StepsOf(c, a)[..k] == [StepsOf(c, a)[0]] + DependencySteps(c, a, |a.dependsOn|)[..k - 1];
  }

  lemma {:induction false} DependencyLength(c: Caller, a: Action, n: nat)
    requires a.CreateWork? && n <= |a.dependsOn|
    ensures |DependencySteps(c, a, n)| == n
  {
    if n > 0 {
      DependencyLength(c, a, n - 1);
    }
  }

  /** The reason of a stop at a dependency: it exists already, or its append was refused; never a cycle, a
      dependency on itself or a missing item. */
  lemma StopReason(s: Sys, known: set<Id>, c: Caller, actions: seq<Action>, now: Time, i: nat, k: nat, next: Sys)
    requires Reachable(s) && Validated(s.view, known, actions, now) && Acyclic(Accumulated(s.view.work, actions))
    requires StoppedAt(s, c, actions, AtStep(i, k), next) && actions[i].CreateWork? && k >= 1
    ensures k - 1 < |actions[i].dependsOn|
    ensures var a, d := actions[i], actions[i].dependsOn[k - 1];
            && Addable(next.view.work, a.item.workItemId, d)
            && (|| WorkEdge(a.item.workItemId, d, DependsOn) in next.view.work.edges
                || KeyUsed(next.log, DependencyStep(c, a, d).key)
                || !OwnStream(next.view, DependencyStep(c, a, d)))
  {
    hide Reachable, Accepted, Run, AllAccepted, AllSteps, StepsOf, Acyclic, Validated, Accumulated, Addable, Before, KeyUsed, OwnStream, DependencyStep;
    StopIsBefore(c, actions, i, k);
    DependencyRefusedIff(s, known, c, actions, now, i, k - 1);
  }

  /** What only the live plane decides about the first command of an action: the integration owner of a created item's
      parent, an item that was completed in between, the expiry and effect key of a lease, and open dependencies. */
  ghost predicate LiveConflict(v: View, c: Caller, a: Action) {
    match a
    case CreateWork(_, item, _) =>
      item.parentWorkItemId.Some? && item.parentWorkItemId.value in v.work.items
      && v.work.items[item.parentWorkItemId.value].integrationOwnerNodeId != item.integrationOwnerNodeId
    case Delegate(_, id, _) => id in v.work.items && v.work.items[id].state !in {Proposed, Ready}
    case Plan(_, l) =>
      || !v.activation.stage.Activated? || c.now >= l.expiresAt
      || exists k :: k in v.effects.leases && v.effects.leases[k].effectKey == l.effectKey && v.effects.leases[k].leaseId != l.leaseId
    case Complete(_, id, _) => !DependenciesCompleted(v, id)
    case _ => false
  }

  /** The part of the plane that an owner's commands leave alone. */
  ghost predicate SameSurroundings(v: View, w: View) {
    v.work.nodes == w.work.nodes && v.agents == w.agents && v.dataSpaceId == w.dataSpaceId
  }

  lemma NodesStay(w: WorkView, e: Event, next: WorkView)
    requires OwnerCommand(e.body) && ApplyWork(w, e) == Ok(next)
    ensures next.nodes == w.nodes
  {
  }

  lemma {:induction false} RunKeepsSurroundings(s: Sys, steps: seq<Step>)
    requires Reachable(s) && forall i :: 0 <= i < |steps| ==> OwnerCommand(steps[i].body)
    ensures SameSurroundings(s.view, Run(s, steps).view)
  {
    hide Reachable, Exec, Accepted, Moves, ApplyWork, AdmitsWork, AdmitsAgents, ApplyAgents, Inv;
    if steps != [] {
      var front, last := steps[..|steps| - 1], steps[|steps| - 1];
      RunKeepsSurroundings(s, front);
      RunStaysReachable(s, front);
      var t := Run(s, front);
      ReachableInv(t);
      ExecMoves(t, last);
      SameServices(t, last);
      if Accepted(t, last) {
        AgentMove(t, last, Exec(t, last));
        WorkMove(t, last, Exec(t, last));
        if InArea(last, WorkArea) {
          NodesStay(t.view.work, EventOf(t.view, last), Exec(t, last).view.work);
        }
      }
    }
  }

  /** A validated action's first command is admitted by a mirroring plane exactly without such a conflict. */
  lemma FirstAdmits(s: View, v: View, c: Caller, decisions: set<Id>, work: map<Id, WorkItem>, edges: Edges, a: Action, now: Time)
    requires ActionOk(s, decisions, work, a, now) && Mirrors(v.work, work, edges) && SameSurroundings(s, v) && StepsOf(c, a) != []
    ensures Admits(v, StepsOf(c, a)[0]) <==> !LiveConflict(v, c, a)
  {
    hide AdmitsAgents, AdmitsRoutes, AdmitsActivation, Reaches, Dependencies, GatesSatisfied, DependenciesCompleted, DependencySteps;
  }

  /** For a validated response: when the turn of an action comes, the Kernel refuses its first command exactly for a
      conflict that the validation does not look at, a used key, or a stream of the activation service. */
  lemma FirstRefusedIff(s: Sys, known: set<Id>, c: Caller, actions: seq<Action>, now: Time, i: nat)
    requires Reachable(s) && Validated(s.view, known, actions, now) && i < |actions| && StepsOf(c, actions[i]) != []
    requires AllAccepted(s, AllSteps(c, actions[..i]))
    ensures var t, step := Run(s, AllSteps(c, actions[..i])), StepsOf(c, actions[i])[0];
            !Accepted(t, step) <==> LiveConflict(t.view, c, actions[i]) || KeyUsed(t.log, step.key) || !OwnStream(t.view, step)
  {
    hide Reachable, Accepted, Run, AllAccepted, AllSteps, StepsOf, ProjectedWork, ProjectedDeps, Dependencies, AddedEdges, Acyclic, Admits, OwnStream,
      KeyUsed, LiveConflict, ActionOk, Mirrors, SameSurroundings;
    var t, a := Run(s, AllSteps(c, actions[..i])), actions[i];
    PrefixMirrors(s, c, actions, i);
    OwnerCommands(c, actions[..i]);
    RunKeepsSurroundings(s, AllSteps(c, actions[..i]));
    assert ActionOk(s.view, DecisionIds(known, actions), ProjectedWork(s.view.work, actions[..i]), a, now);
    FirstAdmits(s.view, t.view, c, DecisionIds(known, actions), ProjectedWork(s.view.work, actions[..i]),
                Dependencies(s.view.work.edges) + AddedEdges(actions[..i]), a, now);
    RunStaysReachable(s, AllSteps(c, actions[..i]));
    AcceptedIff(t, StepsOf(c, a)[0]);
  }

  /** The reason of every other stop of a validated response. */
  lemma FirstStopReason(s: Sys, known: set<Id>, c: Caller, actions: seq<Action>, now: Time, i: nat, next: Sys)
    requires Reachable(s) && Validated(s.view, known, actions, now) && StoppedAt(s, c, actions, AtStep(i, 0), next)
    ensures var step := StepsOf(c, actions[i])[0];
            LiveConflict(next.view, c, actions[i]) || KeyUsed(next.log, step.key) || !OwnStream(next.view, step)
  {
    hide Reachable, Accepted, Run, AllAccepted, AllSteps, StepsOf, Validated, KeyUsed, OwnStream, LiveConflict;
    assert AllSteps(c, actions[..i]) + StepsOf(c, actions[i])[..0] == AllSteps(c, actions[..i]);
    FirstRefusedIff(s, known, c, actions, now, i);
  }

  /** A dependency that is listed twice stops the application at its second place, validated or not. */
  lemma RepeatedDependencyStops(s: Sys, c: Caller, actions: seq<Action>, i: nat, j: nat, k: nat)
    requires Reachable(s) && i < |actions| && actions[i].CreateWork?
    requires j < k < |actions[i].dependsOn| && actions[i].dependsOn[j] == actions[i].dependsOn[k]
    requires AllAccepted(s, Before(c, actions, i, k))
    ensures !Accepted(Run(s, Before(c, actions, i, k)), DependencyStep(c, actions[i], actions[i].dependsOn[k]))
  {
    hide Reachable, Accepted, Run, AllAccepted, AllSteps, StepsOf, DependencySteps, ProjectedWork, Dependencies, AddedEdges, EdgesFrom, Admits, Before;
    var t, a, d := Run(s, Before(c, actions, i, k)), actions[i], actions[i].dependsOn[k];
    MirrorsBefore(s, c, actions, i, k);
    EdgesFromPrefix(a.item.workItemId, a.dependsOn, k);
    assert (a.item.workItemId, a.dependsOn[j]) in Dependencies(t.view.work.edges);
    InDependencies(t.view.work.edges, a.item.workItemId, d);
    KnownEdgeRefused(t, c, a, d);
  }

  lemma KnownEdgeRefused(t: Sys, c: Caller, a: Action, d: Id)
    requires a.CreateWork? && WorkEdge(a.item.workItemId, d, DependsOn) in t.view.work.edges
    ensures !Accepted(t, DependencyStep(c, a, d))
  {
    hide OutcomeOf, Reaches, Dependencies, AdmitsAgents, AdmitsEffects, AdmitsRoutes, AdmitsActivation;
  }

  lemma {:induction false} OwnerCommands(c: Caller, actions: seq<Action>)
    ensures forall i :: 0 <= i < |AllSteps(c, actions)| ==> OwnerCommand(AllSteps(c, actions)[i].body)
  {
    if actions != [] {
      OwnerCommands(c, actions[..|actions| - 1]);
      var a := actions[|actions| - 1];
      if a.CreateWork? {
        DependencyCommands(c, a, |a.dependsOn|);
      }
    }
  }

  lemma {:induction false} DependencyCommands(c: Caller, a: Action, n: nat)
    requires a.CreateWork? && n <= |a.dependsOn|
    ensures forall i :: 0 <= i < |DependencySteps(c, a, n)| ==> DependencySteps(c, a, n)[i].body.WorkDependencyAdded?
  {
    if n > 0 {
      DependencyCommands(c, a, n - 1);
    }
  }

  lemma {:induction false} RunStaysAcyclic(s: Sys, steps: seq<Step>)
    requires Reachable(s) && Acyclic(Dependencies(s.view.work.edges)) && AllAccepted(s, steps)
    requires forall i :: 0 <= i < |steps| ==> OwnerCommand(steps[i].body)
    ensures Acyclic(Dependencies(Run(s, steps).view.work.edges))
  {
    hide Reachable, Accepted, Exec, Moves, Acyclic, Dependencies, AgentsConsistent, RoutesKeyed, NodesKeyed, ItemsKeyed, FindingsKnown, EdgesKnown;
    if steps != [] {
      var p, step := Run(s, steps[..|steps| - 1]), steps[|steps| - 1];
      RunStaysAcyclic(s, steps[..|steps| - 1]);
      RunStaysReachable(s, steps[..|steps| - 1]);
      KnownReferences(p);
      AcceptedMoves(p, step);
      AcyclicStep(p, step, Exec(p, step));
    }
  }

  /** The Kernel completes a response over an acyclic graph only if the accumulated graph is acyclic. */
  lemma CompletionNeedsAcyclic(s: Sys, c: Caller, actions: seq<Action>)
    requires Reachable(s) && Acyclic(Dependencies(s.view.work.edges)) && AllAccepted(s, AllSteps(c, actions))
    ensures Acyclic(Accumulated(s.view.work, actions))
  {
    hide Reachable, Run, AllAccepted, AllSteps, Acyclic, Dependencies, AddedEdges, ProjectedWork;
    assert actions[..|actions|] == actions;
    PrefixMirrors(s, c, actions, |actions|);
    OwnerCommands(c, actions);
    RunStaysAcyclic(s, AllSteps(c, actions));
  }

  /** In every reachable state with acyclic dependencies, and for any two new items, the response that repeats their
      creation passes the validation and is never completed by the Kernel. */
  lemma RepeatedCreationStops(s: Sys, known: set<Id>, itemA: WorkItem, itemB: WorkItem, now: Time, c: Caller)
    requires Reachable(s) && Acyclic(Dependencies(s.view.work.edges))
    requires itemA.workItemId != itemB.workItemId && itemA.workItemId !in s.view.work.items && itemB.workItemId !in s.view.work.items
    requires ActionOk(s.view, {}, s.view.work.items, CreateWork("3", itemA, []), now)
    requires ActionOk(s.view, {}, s.view.work.items, CreateWork("1", itemB, []), now)
    ensures Validated(s.view, known, RepeatedResponse(itemA, itemB), now)
    ensures !AllAccepted(s, AllSteps(c, RepeatedResponse(itemA, itemB)))
  {
    hide Reachable, AllAccepted, AllSteps, Acyclic, Dependencies, Validated, ActionOk, AgentsConsistent, RoutesKeyed, NodesKeyed, ItemsKeyed,
      FindingsKnown, EdgesKnown, RepeatedResponse, Accumulated;
    KnownReferences(s);
    RepeatedValidated(s.view, known, itemA, itemB, now);
    RepeatedCycle(s.view.work, itemA, itemB);
    if AllAccepted(s, AllSteps(c, RepeatedResponse(itemA, itemB))) {
      CompletionNeedsAcyclic(s, c, RepeatedResponse(itemA, itemB));
    }
  }

  /** Such a state is reached, on an activated plane. */
  lemma RepeatedCreationReached(known: set<Id>, c: Caller) returns (s: Sys)
    ensures Reachable(s) && s.view.activation.stage.Activated?
    ensures Validated(s.view, known, RepeatedResponse(ReadyItem("c"), ReadyItem("d")), 0)
    ensures !AllAccepted(s, AllSteps(c, RepeatedResponse(ReadyItem("c"), ReadyItem("d"))))
  {
    hide Reachable, AllAccepted, AllSteps, Acyclic, Dependencies, Validated, RepeatedResponse, Built;
    var steps;
    steps, s := Activated0();
    BuiltReachable(steps, s, {"1", "2", "3", "4", "5", "6"});
    ServicesOf(steps, s, {"1", "2", "3", "4", "5", "6"});
    NoDependencies();
    assert "c"[0] != "d"[0] && "c"[0] != "a"[0] && "c"[0] != "b"[0] && "d"[0] != "a"[0] && "d"[0] != "b"[0];
    RepeatedCreationStops(s, known, ReadyItem("c"), ReadyItem("d"), 0, c);
  }

  // ---- a dependency that is listed twice

  lemma TwiceListedSteps(c: Caller, item: WorkItem, d: Id)
    ensures var r := TwiceListed(item, d);
            && AllSteps(c, r) == Before(c, r, 0, 1) + [DependencyStep(c, r[0], d)]
            && Before(c, r, 0, 1) == [StepsOf(c, r[0])[0], DependencyStep(c, r[0], d)]
            && StepsOf(c, r[0])[0] == StepBy(CallerFor(c, r[0], ":create"), item.workItemId, WorkItemCreated(item), Human, NoContext)
  {
    var r := TwiceListed(item, d);
    assert r[..0] == [] && AllSteps(c, r[..0]) == [];
    assert DependencySteps(c, r[0], 1) == [DependencyStep(c, r[0], d)];
    assert DependencySteps(c, r[0], 2) == [DependencyStep(c, r[0], d), DependencyStep(c, r[0], d)];
    assert AllSteps(c, r) == AllSteps(c, r[..0]) + StepsOf(c, r[0]);
  }

  /** In every reachable state with acyclic dependencies such a response passes the validation, and the Kernel never
      completes it: when the second listing is reached, it is refused. */
  lemma TwiceListedStops(s: Sys, known: set<Id>, item: WorkItem, d: Id, now: Time, c: Caller)
    requires Reachable(s) && Acyclic(Dependencies(s.view.work.edges))
    requires item.workItemId !in s.view.work.items && d in s.view.work.items && ActionOk(s.view, {}, s.view.work.items, CreateWork("1", item, []), now)
    ensures Validated(s.view, known, TwiceListed(item, d), now)
    ensures AllAccepted(s, Before(c, TwiceListed(item, d), 0, 1)) ==>
              !Accepted(Run(s, Before(c, TwiceListed(item, d), 0, 1)), DependencyStep(c, TwiceListed(item, d)[0], d))
    ensures !AllAccepted(s, AllSteps(c, TwiceListed(item, d)))
  {
    hide Reachable, Accepted, Run, AllAccepted, AllSteps, Before, Acyclic, Dependencies, Validated, ActionOk, AgentsConsistent, RoutesKeyed, NodesKeyed, ItemsKeyed,
      FindingsKnown, EdgesKnown, DependencyStep;
    var r := TwiceListed(item, d);
    KnownReferences(s);
    TwiceListedValidated(s.view, known, item, d, now);
    TwiceListedSteps(c, item, d);
    RunSnoc(s, Before(c, r, 0, 1), DependencyStep(c, r[0], d));
    if AllAccepted(s, Before(c, r, 0, 1)) {
      RepeatedDependencyStops(s, c, r, 0, 0, 1);
    }
  }

  const CREATE_KEY: string := "interface:1:create"

  lemma ItemCreated(steps: seq<Step>, s: Sys, c: Caller, create: Step)
    requires Built(steps, s, {"1", "2", "3", "4", "5", "6"}) && Imported(s)
    requires create == StepBy(c.(key := CREATE_KEY), "c", WorkItemCreated(ReadyItem("c")), Human, NoContext)
    ensures Accepted(s, create) && Reachable(Exec(s, create))
    ensures var t := Exec(s, create);
            && t.view.work == WORK.(items := WORK.items["c" := ReadyItem("c")]) && t.view.activation.streamId == STREAM
            && KeysOf(t.log) == {"1", "2", "3", "4", "5", "6", CREATE_KEY}
  {
    hide Run, Reachable, Accepted, Exec, Moves, KeysOf, AdmitsAgents, AdmitsEffects, AdmitsRoutes, AdmitsActivation;
    BuiltReachable(steps, s, {"1", "2", "3", "4", "5", "6"});
    assert "c" != STREAM by { assert |STREAM| != 1; }
    assert CREATE_KEY !in {"1", "2", "3", "4", "5", "6"} by { assert |CREATE_KEY| > 1; }
    KeyUsedIff(s.log, CREATE_KEY);
    AcceptedIff(s, create);
    AcceptedMoves(s, create);
    WorkMove(s, create, Exec(s, create));
    ActivationMove(s, create, Exec(s, create));
  }

  lemma DependencyAdded(t: Sys, c: Caller, depend: Step)
    requires Reachable(t) && t.view.work == WORK.(items := WORK.items["c" := ReadyItem("c")]) && t.view.activation.streamId == STREAM
    requires KeysOf(t.log) == {"1", "2", "3", "4", "5", "6", CREATE_KEY}
    requires depend == DependencyStep(c, TwiceListed(ReadyItem("c"), "a")[0], "a")
    ensures Accepted(t, depend)
  {
    hide Reachable, Accepted, KeysOf, Admits, Reaches, Dependencies;
    var key := "interface:" + "1" + (":depends:" + "a");
    assert |key| > |CREATE_KEY| && depend.key == key;
    assert "c" != STREAM by { assert |STREAM| != 1; }
    assert "c"[0] != "a"[0];
    KeyUsedIff(t.log, key);
    NoEdges(t.view.work);
    SourceUnreached(Dependencies(t.view.work.edges), "a", "c");
    AddableAdmits(t.view, c, TwiceListed(ReadyItem("c"), "a")[0], "a");
    AcceptedIff(t, depend);
  }

  lemma NoEdges(w: WorkView)
    requires w.edges == []
    ensures Dependencies(w.edges) == {}
  {
  }

  /** On a reached activated plane the item is created, its first dependency is added, and the second is refused. */
  lemma TwiceListedReached(known: set<Id>, c: Caller) returns (s: Sys)
    ensures Reachable(s) && s.view.activation.stage.Activated? && Validated(s.view, known, TwiceListed(ReadyItem("c"), "a"), 0)
    ensures AllAccepted(s, Before(c, TwiceListed(ReadyItem("c"), "a"), 0, 1))
    ensures !Accepted(Run(s, Before(c, TwiceListed(ReadyItem("c"), "a"), 0, 1)), DependencyStep(c, TwiceListed(ReadyItem("c"), "a")[0], "a"))
  {
    hide Reachable, Accepted, Run, AllAccepted, AllSteps, Acyclic, Dependencies, Validated, Built, DependencyStep, Before, KeysOf, Admits;
    var item, r := ReadyItem("c"), TwiceListed(ReadyItem("c"), "a");
    var steps;
    steps, s := Activated0();
    var keys := {"1", "2", "3", "4", "5", "6"};
    BuiltReachable(steps, s, keys);
    ServicesOf(steps, s, keys);
    NoDependencies();
    assert "c"[0] != "a"[0] && "c"[0] != "b"[0];
    TwiceListedStops(s, known, item, "a", 0, c);
    TwiceListedSteps(c, item, "a");
    var create, depend := StepsOf(c, r[0])[0], DependencyStep(c, r[0], "a");
    ItemCreated(steps, s, c, create);
    DependencyAdded(Exec(s, create), c, depend);
    assert Before(c, r, 0, 1) == [] + [create] + [depend];
    RunSnoc(s, [], create);
    RunSnoc(s, [] + [create], depend);
    NothingRun(s);
  }
}
