/** The dispatcher: which items it starts, what it checks before a resume, and why a resume
    over acyclic dependencies always finds something to start. */
module Dispatch {
  import opened Models
  import opened Events
  import opened Ledger
  import opened Views
  import opened Commands
  import opened Consistency
  import opened Runs
  import opened WorkRules
  import opened Routes
  import opened Activation
  import opened KernelService
  import opened Naming
  import Graph

  /** A node served by a Pilot. */
  datatype Binding = Binding(nodeId: Id, pilotId: Id, pilotHostId: Id)

  /** Why a preflight is refused. */
  datatype Refusal =
    | BadRequest | BindingsNotUnique | DuplicateRoute | NotReady(id: Id) | NoBinding(id: Id)
    | DependencyUnavailable(id: Id) | RouteUnavailable(id: Id) | CandidateUnavailable(id: Id) | NothingStartable

  /** The collaborators: routing picks a candidate of a snapshot, the registry and executor accept it or not. */
  datatype Routing = Routing(
    select: RouteSnapshot -> Option<string>, accepts: string -> bool, evidenceCursor: nat,
    scale: string -> Option<nat>, column: string -> NameColumn)

  ghost predicate IsCompleted(w: WorkView, id: Id) {
    id in w.items && w.items[id].state.Completed?
  }

  /** The items that `id` depends on. */
  ghost predicate DependsOnItem(w: WorkView, id: Id, dependency: Id) {
    (id, dependency) in Graph.Dependencies(w.edges)
  }

  /** All dependencies of the item are completed. */
  ghost predicate Startable(w: WorkView, id: Id) {
    forall d :: DependsOnItem(w, id, d) ==> IsCompleted(w, d)
  }

  predicate UniqueNodes(bindings: seq<Binding>) {
    forall i, j :: 0 <= i < j < |bindings| ==> bindings[i].nodeId != bindings[j].nodeId
  }

  predicate StateAllowed(state: WorkState, ownerConfirmed: bool) {
    if ownerConfirmed then state in {Proposed, Ready, PausedWork} else state.Ready?
  }

  predicate Bound(bindings: seq<Binding>, nodeId: Id) {
    exists i :: 0 <= i < |bindings| && bindings[i].nodeId == nodeId
  }

  /** Dependencies outside the selection are completed. */
  ghost predicate DependenciesAvailable(w: WorkView, id: Id, selection: set<Id>) {
    forall d :: DependsOnItem(w, id, d) && d !in selection ==> IsCompleted(w, d)
  }

  /** A published, current snapshot serves the route. */
  predicate FreshRoute(routes: map<Id, RouteSnapshot>, routeKey: string, evidenceCursor: nat) {
    exists k :: k in routes && routes[k].state.Published? && routes[k].routeKey == routeKey && routes[k].evidenceCursor == evidenceCursor
  }

  /** The candidate that routing picks is registered and acceptable to the executor. */
  predicate CandidateOk(routes: map<Id, RouteSnapshot>, routeKey: string, routing: Routing) {
    exists k :: k in routes && routes[k].state.Published? && routes[k].routeKey == routeKey
                && routing.select(routes[k]).Some? && routing.accepts(routing.select(routes[k]).value)
  }

  /** The checks of one selected item, in order; none means that it passed. */
  ghost function ItemRefusal(v: View, bindings: seq<Binding>, selection: set<Id>, ownerConfirmed: bool, routing: Routing, id: Id): Option<Refusal> {
    if id !in v.work.items || !StateAllowed(v.work.items[id].state, ownerConfirmed) then Some(NotReady(id))
    else if !Bound(bindings, v.work.items[id].delegatedToNodeId) then Some(NoBinding(id))
    else if !DependenciesAvailable(v.work, id, selection) then Some(DependencyUnavailable(id))
    else if !FreshRoute(v.routes, v.work.items[id].routeKey, routing.evidenceCursor) then Some(RouteUnavailable(id))
    else if !CandidateOk(v.routes, v.work.items[id].routeKey, routing) then Some(CandidateUnavailable(id))
    else None
  }

  /** The item waits for a dependency outside the selection that is not completed. */
  ghost predicate WaitsFor(w: WorkView, id: Id, selection: set<Id>) {
    exists i :: 0 <= i < |w.edges| && w.edges[i].source == id && w.edges[i].kind.DependsOn? && w.edges[i].target !in selection
                && (w.edges[i].target !in w.items || w.items[w.edges[i].target].state != Completed)
  }

  lemma WaitsIff(w: WorkView, id: Id, selection: set<Id>)
    ensures DependenciesAvailable(w, id, selection) <==> !WaitsFor(w, id, selection)
  {
    forall d ensures DependsOnItem(w, id, d) <==> exists i :: 0 <= i < |w.edges| && w.edges[i] == WorkEdge(id, d, DependsOn) {
      Graph.InDependencies(w.edges, id, d);
      DependencyEdge(w.edges, id, d);
    }
    if WaitsFor(w, id, selection) {
      var i :| 0 <= i < |w.edges| && w.edges[i].source == id && w.edges[i].kind.DependsOn? && w.edges[i].target !in selection
               && (w.edges[i].target !in w.items || w.items[w.edges[i].target].state != Completed);
      assert w.edges[i] == WorkEdge(id, w.edges[i].target, DependsOn);
    }
  }

  lemma DependencyEdge(edges: seq<WorkEdge>, id: Id, d: Id)
    ensures (id, d) in Graph.Dependencies(edges) <==> exists i :: 0 <= i < |edges| && edges[i] == WorkEdge(id, d, DependsOn)
  {
    if i :| 0 <= i < |edges| && edges[i] == WorkEdge(id, d, DependsOn) {
      assert edges[i] in edges;
    }
  }

  /** Why a selected item is refused, in terms of the live plane: the first that applies of a wrong state, an unbound
      node, an open dependency outside the selection, no current published route, and no acceptable candidate. */
  lemma RefusalMeans(v: View, bindings: seq<Binding>, selection: set<Id>, ownerConfirmed: bool, routing: Routing, id: Id)
    ensures var r := ItemRefusal(v, bindings, selection, ownerConfirmed, routing, id);
            if id !in v.work.items then r == Some(NotReady(id))
            else
              var w := v.work.items[id];
              if w.state != Ready && !(ownerConfirmed && (w.state == Proposed || w.state == PausedWork)) then r == Some(NotReady(id))
              else if forall i :: 0 <= i < |bindings| ==> bindings[i].nodeId != w.delegatedToNodeId then r == Some(NoBinding(id))
              else if WaitsFor(v.work, id, selection) then r == Some(DependencyUnavailable(id))
              else if forall k :: k in v.routes && v.routes[k].state == Published && v.routes[k].routeKey == w.routeKey
                             ==> v.routes[k].evidenceCursor != routing.evidenceCursor then r == Some(RouteUnavailable(id))
              else if forall k :: k in v.routes && v.routes[k].state == Published && v.routes[k].routeKey == w.routeKey
                             ==> routing.select(v.routes[k]) == None || !routing.accepts(routing.select(v.routes[k]).value) then r == Some(CandidateUnavailable(id))
              else r == None
  {
    hide WaitsFor, DependenciesAvailable;
    WaitsIff(v.work, id, selection);
  }

  // ---- the result that makes resume safe

  /** If the dependencies are acyclic and every selected item passes its checks, some selected item can start:
      the refusal for want of a startable item is unreachable. */
  lemma ResumeNeverDeadlocks(v: View, bindings: seq<Binding>, selection: set<Id>, ownerConfirmed: bool, routing: Routing) returns (id: Id)
    requires Graph.Acyclic(Graph.Dependencies(v.work.edges)) && selection != {}
    requires forall k :: k in selection ==> ItemRefusal(v, bindings, selection, ownerConfirmed, routing, k).None?
    ensures id in selection && Startable(v.work, id)
  {
    hide Graph.Acyclic, Graph.Dependencies;
    id := Graph.FirstItem(Graph.Dependencies(v.work.edges), selection);
    assert DependenciesAvailable(v.work, id, selection);
  }

  /** The same for reachable states: enough that the imported graph was acyclic. */
  lemma ReachableResumeNeverDeadlocks(s: Sys, bindings: seq<Binding>, selection: set<Id>, ownerConfirmed: bool, routing: Routing)
    returns (id: Id)
    requires Reachable(s) && ImportsAcyclic(s.log) && selection != {}
    requires forall k :: k in selection ==> ItemRefusal(s.view, bindings, selection, ownerConfirmed, routing, k).None?
    ensures id in selection && Startable(s.view.work, id)
  {
    hide Reachable, ImportsAcyclic, Graph.Acyclic, ItemRefusal, Startable;
    DependenciesAcyclic(s);
    id := ResumeNeverDeadlocks(s.view, bindings, selection, ownerConfirmed, routing);
  }

  /** Without acyclicity the refusal is real: it is the answer exactly for selections in which every item still
      waits for another selected item. */
  lemma NothingStartableIff(v: View, bindings: seq<Binding>, selection: set<Id>, ownerConfirmed: bool, routing: Routing)
    requires forall k :: k in selection ==> ItemRefusal(v, bindings, selection, ownerConfirmed, routing, k).None?
    ensures (forall k :: k in selection ==> !Startable(v.work, k))
            <==> forall k :: k in selection ==> exists d :: d in selection && DependsOnItem(v.work, k, d)
  {
    hide Graph.Dependencies;
    forall k | k in selection ensures Startable(v.work, k) <==> !(exists d :: d in selection && DependsOnItem(v.work, k, d)) {
      assert DependenciesAvailable(v.work, k, selection);
      forall d | d in selection && DependsOnItem(v.work, k, d) ensures !IsCompleted(v.work, d) {
        assert ItemRefusal(v, bindings, selection, ownerConfirmed, routing, d).None?;
      }
    }
  }

  // ---- the preflight itself

  /** Does the item have a dependency for which the test fails? The dependencies are listed in edge order. */
  method AllDependencies(w: WorkView, id: Id, exempt: set<Id>) returns (ok: bool)
    requires EdgesKnown(w.edges, w.items)
    ensures ok <==> DependenciesAvailable(w, id, exempt)
  {
    hide Graph.Dependencies;
    var dependencies := Graph.Targets(w.edges, id);
    ok := true;
    for i := 0 to |dependencies|
      invariant ok <==> forall j :: 0 <= j < i && dependencies[j] !in exempt ==> IsCompleted(w, dependencies[j])
    {
      assert dependencies[i] in dependencies;
      KnownTarget(w, id, dependencies[i]);
      if dependencies[i] !in exempt && !w.items[dependencies[i]].state.Completed? {
        ok := false;
      }
    }
    forall d ensures DependsOnItem(w, id, d) <==> d in dependencies { }
  }

  lemma KnownTarget(w: WorkView, id: Id, d: Id)
    requires EdgesKnown(w.edges, w.items) && d in Graph.Targets(w.edges, id)
    ensures d in w.items
  {
    Graph.InDependencies(w.edges, id, d);
  }

  /** The refusal is that of the first selected item that does not pass. */
  ghost predicate FirstRefusal(v: View, bindings: seq<Binding>, selection: seq<Id>, ownerConfirmed: bool, routing: Routing, r: Option<Refusal>) {
    var chosen := set k | k in selection;
    exists i :: 0 <= i < |selection| && ItemRefusal(v, bindings, chosen, ownerConfirmed, routing, selection[i]) == r
                && forall j :: 0 <= j < i ==> ItemRefusal(v, bindings, chosen, ownerConfirmed, routing, selection[j]).None?
  }

  /** The preflight of a resume, with the selected items in any order. It passes exactly when every item passes and one can start. */
  method PreflightReady(v: View, bindings: seq<Binding>, selection: seq<Id>, configured: bool, ownerConfirmed: bool, routing: Routing)
    returns (r: Option<Refusal>)
    requires EdgesKnown(v.work.edges, v.work.items)
    ensures var chosen := set k | k in selection;
            var usable := selection != [] && configured && UniqueNodes(bindings) && OnePublished(v.routes);
            && (r.None? <==> usable && (forall k :: k in chosen ==> ItemRefusal(v, bindings, chosen, ownerConfirmed, routing, k).None?)
                             && exists k :: k in chosen && Startable(v.work, k))
            && (r == Some(NothingStartable) <==>
                  usable && (forall k :: k in chosen ==> ItemRefusal(v, bindings, chosen, ownerConfirmed, routing, k).None?)
                  && forall k :: k in chosen ==> !Startable(v.work, k))
            && (usable && r.Some? && r != Some(NothingStartable) ==> FirstRefusal(v, bindings, selection, ownerConfirmed, routing, r))
            && (!usable ==> r == Some(if selection == [] || !configured then BadRequest
                                      else if !UniqueNodes(bindings) then BindingsNotUnique else DuplicateRoute))
  {
    hide Graph.Dependencies, UniqueNodes, OnePublished, Bound, FreshRoute, CandidateOk, EdgesKnown;
    ghost var chosen := set k | k in selection;
    if selection == [] || !configured {
      return Some(BadRequest);
    }
    if !UniqueNodes(bindings) {
      return Some(BindingsNotUnique);
    }
    if !OnePublished(v.routes) {
      return Some(DuplicateRoute);
    }
    var startable := 0;
    var exempt := set k | k in selection;
    for i := 0 to |selection|
      invariant forall j :: 0 <= j < i ==> ItemRefusal(v, bindings, chosen, ownerConfirmed, routing, selection[j]).None?
      invariant startable == 0 <==> forall j :: 0 <= j < i ==> !Startable(v.work, selection[j])
      invariant startable >= 0
    {
      var id := selection[i];
      assert id in chosen;
      if id !in v.work.items || !StateAllowed(v.work.items[id].state, ownerConfirmed) {
        return Some(NotReady(id));
      }
      if !Bound(bindings, v.work.items[id].delegatedToNodeId) {
        return Some(NoBinding(id));
      }
      var available := AllDependencies(v.work, id, exempt);
      if !available {
        return Some(DependencyUnavailable(id));
      }
      var ready := AllDependencies(v.work, id, {});
      assert ready <==> Startable(v.work, id);
      if ready {
        startable := startable + 1;
      }
      if !FreshRoute(v.routes, v.work.items[id].routeKey, routing.evidenceCursor) {
        return Some(RouteUnavailable(id));
      }
      if !CandidateOk(v.routes, v.work.items[id].routeKey, routing) {
        return Some(CandidateUnavailable(id));
      }
    }
    assert selection[0] in selection;
    return if startable == 0 then Some(NothingStartable) else None;
  }

  // ---- what a dispatch starts

  /** The item has a requested or running execution. */
  ghost predicate Busy(a: AgentView, id: Id) {
    exists k :: k in a.executions && a.executions[k].workItemId == id && a.executions[k].state in {Requested, ActiveExecution}
  }

  /** Ready, idle, allowed, and with every dependency completed. */
  ghost predicate Eligible(w: WorkView, a: AgentView, allowed: Option<set<Id>>, id: Id) {
    && id in w.items && (allowed.Some? ==> id in allowed.value)
    && w.items[id].state.Ready? && !Busy(a, id) && Startable(w, id)
  }

  /** The items that a dispatch starts, out of all items listed in any order without repetition. */
  method EligibleItems(w: WorkView, a: AgentView, all: seq<Id>, allowed: Option<set<Id>>) returns (eligible: seq<Id>)
    requires EdgesKnown(w.edges, w.items)
    requires (forall k :: k in all <==> k in w.items) && forall i, j :: 0 <= i < j < |all| ==> all[i] != all[j]
    ensures forall k :: k in eligible <==> Eligible(w, a, allowed, k)
    ensures forall i, j :: 0 <= i < j < |eligible| ==> eligible[i] != eligible[j]
  {
    hide Graph.Dependencies, EdgesKnown, Startable;
    var busy := set k | k in a.executions && a.executions[k].state in {Requested, ActiveExecution} :: a.executions[k].workItemId;
    eligible := [];
    for n := 0 to |all|
      invariant forall k :: k in eligible <==> k in all[..n] && Eligible(w, a, allowed, k)
      invariant forall i, j :: 0 <= i < j < |eligible| ==> eligible[i] != eligible[j]
    {
      var id := all[n];
      assert all[..n + 1] == all[..n] + [id] && id in all && id !in all[..n];
      assert id in busy <==> Busy(a, id);
      var ready := AllDependencies(w, id, {});
      assert ready <==> Startable(w, id) by { NoExemption(w, id); }
      if (allowed.None? || id in allowed.value) && w.items[id].state.Ready? && id !in busy && ready {
        eligible := eligible + [id];
      }
    }
    assert all[..|all|] == all;
  }

  lemma NoExemption(w: WorkView, id: Id)
    ensures DependenciesAvailable(w, id, {}) <==> Startable(w, id)
  {
  }

  /** Which items a dispatch takes: ready ones that it may take, with every dependency completed and no requested or
      running execution. */
  lemma EligibleMeans(w: WorkView, a: AgentView, allowed: Option<set<Id>>, id: Id)
    ensures Eligible(w, a, allowed, id)
            <==> && id in w.items && w.items[id].state == Ready && (allowed == None || id in allowed.value) && !WaitsFor(w, id, {})
                 && forall k :: k in a.executions && a.executions[k].workItemId == id
                                ==> a.executions[k].state != Requested && a.executions[k].state != ActiveExecution
  {
    hide WaitsFor, DependenciesAvailable, Startable;
    WaitsIff(w, id, {});
    NoExemption(w, id);
  }

  /** Dispatching makes progress: over acyclic dependencies, if some allowed items are open and all open items are
      ready, idle and allowed, at least one of them is eligible. */
  lemma DispatchMakesProgress(s: Sys, allowed: Option<set<Id>>) returns (id: Id)
    requires Reachable(s) && ImportsAcyclic(s.log)
    requires exists k :: k in s.view.work.items && !IsCompleted(s.view.work, k)
    requires forall k :: k in s.view.work.items && !IsCompleted(s.view.work, k) ==>
               s.view.work.items[k].state.Ready? && !Busy(s.view.agents, k) && (allowed.Some? ==> k in allowed.value)
    ensures Eligible(s.view.work, s.view.agents, allowed, id)
  {
    hide Reachable, ImportsAcyclic, Graph.Acyclic, Graph.Dependencies, Busy, NodesKeyed, ItemsKeyed, FindingsKnown, AgentsConsistent, RoutesKeyed, EdgesKnown;
    DependenciesAcyclic(s);
    KnownReferences(s);
    var open := set k | k in s.view.work.items && !IsCompleted(s.view.work, k);
    var k :| k in s.view.work.items && !IsCompleted(s.view.work, k);
    assert k in open;
    id := Graph.FirstItem(Graph.Dependencies(s.view.work.edges), open);
    forall d | DependsOnItem(s.view.work, id, d) ensures IsCompleted(s.view.work, d) {
      KnownDependency(s.view.work, id, d);
    }
  }

  lemma KnownDependency(w: WorkView, id: Id, d: Id)
    requires EdgesKnown(w.edges, w.items) && DependsOnItem(w, id, d)
    ensures d in w.items
  {
    Graph.InDependencies(w.edges, id, d);
  }

  // ---- planning a batch

  /** An eligible item with the binding of its node and the candidate that routing picked for it. */
  datatype Planned = Planned(itemId: Id, binding: Binding, candidateKey: string, scale: Option<nat>, column: NameColumn)

  /** An item can be planned: its node is bound, and a current published route picks an acceptable candidate. */
  predicate Plannable(w: WorkView, routes: map<Id, RouteSnapshot>, bindings: seq<Binding>, routing: Routing, id: Id)
    requires id in w.items
  {
    && Bound(bindings, w.items[id].delegatedToNodeId)
    && FreshRoute(routes, w.items[id].routeKey, routing.evidenceCursor)
    && CandidateOk(routes, w.items[id].routeKey, routing)
  }

  /** The plan of an item: its node's binding, and the candidate that routing picked from the current published route. */
  ghost predicate PlannedFor(w: WorkView, routes: map<Id, RouteSnapshot>, bindings: seq<Binding>, routing: Routing, id: Id, p: Planned) {
    && p.itemId == id && id in w.items && p.binding in bindings && p.binding.nodeId == w.items[id].delegatedToNodeId
    && (exists k :: k in routes && routes[k].state.Published? && routes[k].routeKey == w.items[id].routeKey
                    && routes[k].evidenceCursor == routing.evidenceCursor && routing.select(routes[k]) == Some(p.candidateKey))
    && routing.accepts(p.candidateKey) && p.scale == routing.scale(p.candidateKey) && p.column == routing.column(p.candidateKey)
  }

  ghost predicate PlanOf(w: WorkView, routes: map<Id, RouteSnapshot>, bindings: seq<Binding>, routing: Routing, items: seq<Id>, plan: seq<Planned>) {
    |plan| == |items| && forall i :: 0 <= i < |items| ==> PlannedFor(w, routes, bindings, routing, items[i], plan[i])
  }

  /** Plans the eligible items; one that cannot be planned fails the whole dispatch before anything is created. */
  method PlanBatch(w: WorkView, routes: map<Id, RouteSnapshot>, eligible: seq<Id>, bindings: seq<Binding>, routing: Routing) returns (r: Result<seq<Planned>>)
    requires forall id :: id in eligible ==> id in w.items
    ensures r.Ok? <==> UniqueNodes(bindings) && OnePublished(routes) && forall id :: id in eligible ==> Plannable(w, routes, bindings, routing, id)
    ensures r.Ok? ==> PlanOf(w, routes, bindings, routing, eligible, r.value)
  {
    hide PlannedFor;
    if !UniqueNodes(bindings) || !OnePublished(routes) {
      return Err(InvariantViolation);
    }
    var plan: seq<Planned> := [];
    for n := 0 to |eligible|
      invariant |plan| == n
      invariant forall i :: 0 <= i < n ==> Plannable(w, routes, bindings, routing, eligible[i])
      invariant forall i :: 0 <= i < n ==> PlannedFor(w, routes, bindings, routing, eligible[i], plan[i])
    {
      var id := eligible[n];
      if !Plannable(w, routes, bindings, routing, id) {
        return Err(InvariantViolation);
      }
      var p := PlanItem(w, routes, bindings, routing, id);
      plan := plan + [p];
    }
    return Ok(plan);
  }

  method PlanItem(w: WorkView, routes: map<Id, RouteSnapshot>, bindings: seq<Binding>, routing: Routing, id: Id) returns (p: Planned)
    requires OnePublished(routes) && id in w.items && Plannable(w, routes, bindings, routing, id)
    ensures PlannedFor(w, routes, bindings, routing, id, p)
  {
    var b :| 0 <= b < |bindings| && bindings[b].nodeId == w.items[id].delegatedToNodeId;
    var k :| k in routes && routes[k].state.Published? && routes[k].routeKey == w.items[id].routeKey;
    var candidate := routing.select(routes[k]).value;
    return Planned(id, bindings[b], candidate, routing.scale(candidate), routing.column(candidate));
  }
}
