/** The work graph over whole runs: dependencies stay acyclic, blockers and states agree, and
    completion was gated when it was recorded. */
module WorkRules {
  import opened Models
  import opened Events
  import opened Ledger
  import opened Views
  import opened Commands
  import opened Consistency
  import opened Runs
  import opened Graph

  // ---- dependencies

  ghost predicate ImportsAcyclic(log: seq<StoredEvent>) {
    forall d :: d in log && d.event.body.WorkGraphImported? ==> Acyclic(Dependencies(d.event.body.graph.edges))
  }

  lemma DependenciesConcat(xs: seq<WorkEdge>, ys: seq<WorkEdge>)
    ensures Dependencies(xs + ys) == Dependencies(xs) + Dependencies(ys)
  {
    forall a, b ensures (a, b) in Dependencies(xs + ys) <==> (a, b) in Dependencies(xs) || (a, b) in Dependencies(ys) {
      InDependencies(xs + ys, a, b);
      InDependencies(xs, a, b);
      InDependencies(ys, a, b);
    }
  }

  /** A child item adds no dependency. */
  lemma ParentEdgesAreNoDependencies(w: WorkItem)
    ensures Dependencies(ParentEdges(w)) == {}
  {
  }

  lemma OneDependency(e: WorkEdge)
    requires e.kind.DependsOn?
    ensures Dependencies([e]) == {(e.source, e.target)}
  {
    assert e in [e];
  }

  lemma DependenciesWithin(edges: seq<WorkEdge>, items: set<Id>)
    requires EdgesWithin(edges, items)
    ensures EndpointsIn(Dependencies(edges), items)
  {
  }

  /** An imported graph is separate from the items that exist already. */
  lemma ImportIsSeparate(v: View, g: WorkGraph)
    requires ImportOk(v, g)
    ensures WorkItemsById(g.workItems).Keys !! v.work.items.Keys && EdgesWithin(g.edges, WorkItemsById(g.workItems).Keys)
  {
    WorkItemsByIdKeyed(g.workItems);
    forall k | k in WorkItemsById(g.workItems) ensures k !in v.work.items {
      var i :| 0 <= i < |g.workItems| && g.workItems[i] == WorkItemsById(g.workItems)[k];
    }
  }

  /** The edges that an accepted work command adds. */
  function NewEdges(b: EventBody): seq<WorkEdge> {
    match b
    case WorkItemCreated(w) => ParentEdges(w)
    case WorkDependencyAdded(e) => [e]
    case WorkGraphImported(g) => g.edges
    case _ => []
  }

  lemma EdgesMove(p: Sys, step: Step, s: Sys)
    requires Moves(p, step, s)
    ensures s.view.work.edges == p.view.work.edges + NewEdges(step.body)
  {
    hide Moves, AdmitsWork;
    WorkMove(p, step, s);
  }

  lemma WorkGuard(p: Sys, step: Step, s: Sys)
    requires Moves(p, step, s) && InArea(step, WorkArea)
    ensures AdmitsWork(p.view, step)
  {
    hide Moves, AdmitsWork, ApplyWork;
    WorkMove(p, step, s);
  }

  /** A command keeps the dependencies acyclic exactly when what it imports is. */
  lemma AcyclicStep(p: Sys, step: Step, s: Sys)
    requires Moves(p, step, s) && EdgesKnown(p.view.work.edges, p.view.work.items)
    ensures Acyclic(Dependencies(s.view.work.edges)) <==>
              Acyclic(Dependencies(p.view.work.edges))
              && (step.body.WorkGraphImported? ==> Acyclic(Dependencies(step.body.graph.edges)))
  {
    hide Moves, Acyclic, Dependencies, Reaches, ImportOk;
    var edges := p.view.work.edges;
    EdgesMove(p, step, s);
    DependenciesConcat(edges, NewEdges(step.body));
    match step.body {
    case WorkItemCreated(w) =>
      ParentEdgesAreNoDependencies(w);
      assert Dependencies(edges) + {} == Dependencies(edges);
    case WorkDependencyAdded(e) =>
      WorkGuard(p, step, s);
      OneDependency(e);
      AddEdge(Dependencies(edges), e.source, e.target);
    case WorkGraphImported(g) =>
      WorkGuard(p, step, s);
      ImportIsSeparate(p.view, g);
      DependenciesWithin(edges, p.view.work.items.Keys);
      DependenciesWithin(g.edges, WorkItemsById(g.workItems).Keys);
      DisjointUnion(Dependencies(edges), Dependencies(g.edges), p.view.work.items.Keys, WorkItemsById(g.workItems).Keys);
    case _ => assert edges + [] == edges;
    }
  }

  /** In every reachable state the dependencies are acyclic exactly when every imported graph was. */
  lemma {:induction false} DependenciesAcyclic(s: Sys)
    requires Reachable(s)
    ensures Acyclic(Dependencies(s.view.work.edges)) <==> ImportsAcyclic(s.log)
    decreases |s.log|
  {
    hide Reachable, Moves, Acyclic, Dependencies, AgentsConsistent, RoutesKeyed;
    if s.log == [] {
      AtStart(s);
      NoDependencies();
    } else {
      var p, step := Before(s);
      DependenciesAcyclic(p);
      KnownReferences(p);
      AcyclicStep(p, step, s);
      LogGrows(p, step, s);
    }
  }

  lemma NoDependencies()
    ensures Acyclic(Dependencies([]))
  {
  }

  // ---- blockers

  /** Open and completed items have no blockers; blocked ones have some. */
  predicate BlockersFit(w: WorkItem) {
    (w.state in {Proposed, Ready, Completed} ==> w.blockers == []) && (w.state.Blocked? ==> w.blockers != [])
  }

  ghost predicate AllFit(items: map<Id, WorkItem>) {
    forall k :: k in items ==> BlockersFit(items[k])
  }

  ghost predicate ImportsFit(log: seq<StoredEvent>) {
    forall d :: d in log && d.event.body.WorkGraphImported? ==>
      forall i :: 0 <= i < |d.event.body.graph.workItems| ==> BlockersFit(d.event.body.graph.workItems[i])
  }

  lemma FitApplied(v: View, step: Step, e: Event, work: WorkView)
    requires AdmitsWork(v, step) && e.body == step.body && e.streamId == step.streamId && ApplyWork(v.work, e) == Ok(work)
    requires AllFit(v.work.items) && FindingsKnown(v.work.findings, v.work.items)
    requires step.body.WorkGraphImported? ==> forall i :: 0 <= i < |step.body.graph.workItems| ==> BlockersFit(step.body.graph.workItems[i])
    ensures AllFit(work.items)
  {
    hide Reaches, Dependencies, ImportOk, DependenciesCompleted;
    if step.body.WorkGraphImported? {
      WorkItemsByIdKeyed(step.body.graph.workItems);
    }
  }

  lemma FitStep(p: Sys, step: Step, s: Sys)
    requires Moves(p, step, s) && AllFit(p.view.work.items) && FindingsKnown(p.view.work.findings, p.view.work.items)
    requires step.body.WorkGraphImported? ==> forall i :: 0 <= i < |step.body.graph.workItems| ==> BlockersFit(step.body.graph.workItems[i])
    ensures AllFit(s.view.work.items)
  {
    hide Moves, AdmitsWork, ApplyWork, BlockersFit, FindingsKnown;
    WorkMove(p, step, s);
    if InArea(step, WorkArea) {
      FitApplied(p.view, step, EventOf(p.view, step), s.view.work);
    }
  }

  /** With fitting imports, blockers and states agree in every reachable state. */
  lemma {:induction false} BlockersAgree(s: Sys)
    requires Reachable(s) && ImportsFit(s.log)
    ensures AllFit(s.view.work.items)
    decreases |s.log|
  {
    hide Reachable, Moves, BlockersFit, NodesKeyed, ItemsKeyed, EdgesKnown, FindingsKnown, AgentsConsistent, RoutesKeyed;
    if s.log == [] {
      AtStart(s);
    } else {
      var p, step := Before(s);
      LogGrows(p, step, s);
      BlockersAgree(p);
      KnownReferences(p);
      FitStep(p, step, s);
    }
  }

  /** With distinct identities, every listed item is found under its own. */
  lemma ItemsFound(items: seq<WorkItem>, i: nat)
    requires i < |items| && forall j, k :: 0 <= j < k < |items| ==> items[j].workItemId != items[k].workItemId
    ensures items[i].workItemId in WorkItemsById(items) && WorkItemsById(items)[items[i].workItemId] == items[i]
  {
    WorkItemsByIdKeyed(items);
    var j :| 0 <= j < |items| && items[j] == WorkItemsById(items)[items[i].workItemId];
  }

  /** An import shows its items as they are. */
  lemma ImportShows(p: Sys, step: Step, s: Sys, i: nat)
    requires Moves(p, step, s) && step.body.WorkGraphImported? && i < |step.body.graph.workItems|
    ensures var w := step.body.graph.workItems[i];
            w.workItemId in s.view.work.items && s.view.work.items[w.workItemId] == w
  {
    hide Moves, AdmitsWork, WorkItemsById;
    WorkMove(p, step, s);
    DistinctItems(p.view, step);
    ItemsFound(step.body.graph.workItems, i);
  }

  lemma DistinctItems(v: View, step: Step)
    requires AdmitsWork(v, step) && step.body.WorkGraphImported?
    ensures forall j, k :: 0 <= j < k < |step.body.graph.workItems| ==>
              step.body.graph.workItems[j].workItemId != step.body.graph.workItems[k].workItemId
  {
    hide Reaches, Dependencies, DependenciesCompleted;
  }

  /** Blockers and states agree at every point of a run exactly when the imported items agreed. */
  lemma BlockersAgreeThroughout(s: Sys)
    requires Reachable(s)
    ensures (forall i :: 0 <= i <= |s.log| ==> AllFit(At(s, i).view.work.items)) <==> ImportsFit(s.log)
  {
    hide Reachable, Moves, At, BlockersFit;
    if ImportsFit(s.log) {
      forall i | 0 <= i <= |s.log| ensures AllFit(At(s, i).view.work.items) {
        PrefixReachable(s, i);
        assert forall d :: d in s.log[..i] ==> d in s.log;
        BlockersAgree(At(s, i));
      }
    }
    if forall i :: 0 <= i <= |s.log| ==> AllFit(At(s, i).view.work.items) {
      forall d, j | d in s.log && d.event.body.WorkGraphImported? && 0 <= j < |d.event.body.graph.workItems|
        ensures BlockersFit(d.event.body.graph.workItems[j])
      {
        var i :| 0 <= i < |s.log| && s.log[i] == d;
        var step := EventAdmitted(s, i);
        assert step.body == d.event.body;
        ImportShows(At(s, i), step, At(s, i + 1), j);
        assert AllFit(At(s, i + 1).view.work.items);
      }
    }
  }

  // ---- completion

  /** The item was imported in its completed state. */
  ghost predicate ImportedCompleted(log: seq<StoredEvent>, id: Id) {
    exists d :: d in log && ImportsAsCompleted(d, id)
  }

  ghost predicate ImportsAsCompleted(d: StoredEvent, id: Id) {
    && d.event.body.WorkGraphImported?
    && exists i :: 0 <= i < |d.event.body.graph.workItems| && d.event.body.graph.workItems[i].workItemId == id
                   && d.event.body.graph.workItems[i].state.Completed?
  }

  predicate Gated(w: WorkItem) {
    w.evidence.Some? && GatesSatisfied(w.evidence.value)
  }

  ghost predicate CompletedGated(items: map<Id, WorkItem>, log: seq<StoredEvent>) {
    forall k :: k in items && items[k].state.Completed? ==> Gated(items[k]) || ImportedCompleted(log, k)
  }

  lemma CompletedApplied(v: View, step: Step, e: Event, work: WorkView, k: Id)
    requires AdmitsWork(v, step) && e.body == step.body && e.streamId == step.streamId && ApplyWork(v.work, e) == Ok(work)
    requires k in work.items && work.items[k].state.Completed? && FindingsKnown(v.work.findings, v.work.items)
    ensures || (k in v.work.items && v.work.items[k] == work.items[k])
            || Gated(work.items[k])
            || (step.body.WorkGraphImported? && k in WorkItemsById(step.body.graph.workItems)
                && work.items[k] == WorkItemsById(step.body.graph.workItems)[k])
  {
    hide Reaches, Dependencies, ImportOk, DependenciesCompleted, WorkItemsById;
  }

  /** A work item that is completed after a move was completed before, was just completed, or was just imported. */
  lemma CompletedMove(p: Sys, step: Step, s: Sys, k: Id)
    requires Moves(p, step, s) && k in s.view.work.items && s.view.work.items[k].state.Completed?
    requires FindingsKnown(p.view.work.findings, p.view.work.items)
    ensures || (k in p.view.work.items && p.view.work.items[k] == s.view.work.items[k])
            || Gated(s.view.work.items[k])
            || ImportsAsCompleted(StoredFor(p, step), k)
  {
    hide Moves, AdmitsWork, ApplyWork, Gated, FindingsKnown;
    WorkMove(p, step, s);
    if InArea(step, WorkArea) {
      CompletedApplied(p.view, step, EventOf(p.view, step), s.view.work, k);
    }
    if step.body.WorkGraphImported? && k in WorkItemsById(step.body.graph.workItems) {
      WorkItemsByIdKeyed(step.body.graph.workItems);
    }
  }

  /** Every completed item that was not imported as completed carries evidence that satisfies the six gates. */
  lemma {:induction false} CompletionIsGated(s: Sys)
    requires Reachable(s)
    ensures CompletedGated(s.view.work.items, s.log)
    decreases |s.log|
  {
    hide Reachable, Moves, Gated, ImportsAsCompleted, NodesKeyed, ItemsKeyed, EdgesKnown, FindingsKnown, AgentsConsistent, RoutesKeyed;
    if s.log == [] {
      AtStart(s);
    } else {
      var p, step := Before(s);
      CompletionIsGated(p);
      LogGrows(p, step, s);
      KnownReferences(p);
      forall k | k in s.view.work.items && s.view.work.items[k].state.Completed?
        ensures Gated(s.view.work.items[k]) || ImportedCompleted(s.log, k)
      {
        CompletedMove(p, step, s, k);
      }
    }
  }

  /** When a completion was recorded, the events before it had completed every dependency of the item and
      left it without blockers, and the evidence satisfied the gates. */
  lemma CompletedAfterDependencies(s: Sys, i: nat)
    requires Reachable(s) && i < |s.log| && s.log[i].event.body.WorkItemCompleted?
    ensures var v, id := At(s, i).view, s.log[i].event.streamId;
            && id in v.work.items && v.work.items[id].blockers == [] && DependenciesCompleted(v, id)
            && GatesSatisfied(s.log[i].event.body.evidence)
            && id in At(s, i + 1).view.work.items && At(s, i + 1).view.work.items[id].state.Completed?
  {
    hide Reachable, Moves, At, Reaches, Dependencies, DependenciesCompleted;
    var step := EventAdmitted(s, i);
    WorkMove(At(s, i), step, At(s, i + 1));
  }

  /** The work graph is imported at most once, and exactly when the activation names its snapshot. */
  lemma {:induction false} ImportedOnce(s: Sys)
    requires Reachable(s)
    ensures forall i, j :: 0 <= i < j < |s.log| && s.log[i].event.body.WorkGraphImported? ==> !s.log[j].event.body.WorkGraphImported?
    ensures s.view.activation.workGraphSnapshotId.Some? <==> exists d :: d in s.log && d.event.body.WorkGraphImported?
    decreases |s.log|
  {
    hide Reachable, Moves;
    if s.log == [] {
      AtStart(s);
    } else {
      var p, step := Before(s);
      ImportedOnce(p);
      LogGrows(p, step, s);
      ImportMove(p, step, s);
      assert forall i :: 0 <= i < |p.log| ==> s.log[i] == p.log[i] && p.log[i] in p.log;
      assert s.log[|p.log|] in s.log;
    }
  }

  lemma ImportMove(p: Sys, step: Step, s: Sys)
    requires Moves(p, step, s)
    ensures step.body.WorkGraphImported? ==>
              p.view.activation.workGraphSnapshotId.None? && s.view.activation.workGraphSnapshotId.Some?
    ensures !step.body.WorkGraphImported? ==> s.view.activation.workGraphSnapshotId == p.view.activation.workGraphSnapshotId
  {
    hide Moves, AdmitsActivation, Reaches, Dependencies, DependenciesCompleted;
    ActivationMove(p, step, s);
    WorkMove(p, step, s);
  }

  // ---- where items belong

  /** Items belong to the data space, and their delegates are known nodes. */
  ghost predicate Placed(w: WorkView, dataSpaceId: Id) {
    forall k :: k in w.items ==> w.items[k].dataSpaceId == dataSpaceId && w.items[k].delegatedToNodeId in w.nodes
  }

  lemma PlacedImport(w: WorkView, dataSpaceId: Id, g: WorkGraph)
    requires Placed(w, dataSpaceId) && ImportItemsOk(w, dataSpaceId, g)
    ensures Placed(w.(nodes := w.nodes + NodesById(g.nodes), items := w.items + WorkItemsById(g.workItems), edges := w.edges + g.edges), dataSpaceId)
  {
    hide NodesById, WorkItemsById;
    WorkItemsByIdKeyed(g.workItems);
    forall k | k in WorkItemsById(g.workItems)
      ensures WorkItemsById(g.workItems)[k].dataSpaceId == dataSpaceId
              && WorkItemsById(g.workItems)[k].delegatedToNodeId in w.nodes + NodesById(g.nodes)
    {
      var i :| 0 <= i < |g.workItems| && g.workItems[i] == WorkItemsById(g.workItems)[k];
    }
  }

  lemma PlacedApplied(v: View, step: Step, e: Event, work: WorkView)
    requires AdmitsWork(v, step) && e.body == step.body && e.streamId == step.streamId && ApplyWork(v.work, e) == Ok(work)
    requires Placed(v.work, v.dataSpaceId) && FindingsKnown(v.work.findings, v.work.items)
    ensures Placed(work, v.dataSpaceId)
  {
    hide Reaches, Dependencies, DependenciesCompleted, ValidWorkGraph, EdgesWithin, ImportItemsOk, ImportNodesOk, NodesById, WorkItemsById, Without, ResumeOk, GatesSatisfied, ParentEdges, ValidNode;
    if step.body.WorkGraphImported? {
      PlacedImport(v.work, v.dataSpaceId, step.body.graph);
    }
  }

  /** In every reachable state all items are placed. */
  lemma {:induction false} ItemsPlaced(s: Sys)
    requires Reachable(s)
    ensures Placed(s.view.work, s.view.dataSpaceId)
    decreases |s.log|
  {
    hide Reachable, Moves, AgentsConsistent, RoutesKeyed, NodesKeyed, ItemsKeyed, EdgesKnown, FindingsKnown, AdmitsWork, ApplyWork;
    if s.log == [] {
      AtStart(s);
    } else {
      hide Placed;
      var p, step := Before(s);
      ItemsPlaced(p);
      KnownReferences(p);
      WorkMove(p, step, s);
      if InArea(step, WorkArea) {
        PlacedApplied(p.view, step, EventOf(p.view, step), s.view.work);
      }
    }
  }

  // ---- delegates

  /** The event names the item's delegate: it delegates, creates or imports the item. */
  predicate NamesDelegate(d: StoredEvent, itemId: Id, nodeId: Id) {
    match d.event.body
    case WorkItemDelegated(node) => d.event.streamId == itemId && node == nodeId
    case WorkItemCreated(w) => w.workItemId == itemId && w.delegatedToNodeId == nodeId
    case WorkGraphImported(g) =>
      exists i :: 0 <= i < |g.workItems| && g.workItems[i].workItemId == itemId && g.workItems[i].delegatedToNodeId == nodeId
    case _ => false
  }

  predicate TouchesDelegate(d: StoredEvent, itemId: Id) {
    match d.event.body
    case WorkItemDelegated(_) => d.event.streamId == itemId
    case WorkItemCreated(w) => w.workItemId == itemId
    case WorkGraphImported(g) => exists i :: 0 <= i < |g.workItems| && g.workItems[i].workItemId == itemId
    case _ => false
  }

  lemma DelegateApplied(v: View, step: Step, d: StoredEvent, work: WorkView, id: Id)
    requires AdmitsWork(v, step) && d.event.body == step.body && d.event.streamId == step.streamId && ApplyWork(v.work, d.event) == Ok(work)
    requires id in work.items && ItemsKeyed(v.work.items) && !step.body.WorkGraphImported?
    ensures TouchesDelegate(d, id) ==> NamesDelegate(d, id, work.items[id].delegatedToNodeId)
    ensures !TouchesDelegate(d, id) ==> id in v.work.items && work.items[id].delegatedToNodeId == v.work.items[id].delegatedToNodeId
  {
    hide Reaches, Dependencies, DependenciesCompleted, ImportOk, NewWorkOk, ResumeOk, GatesSatisfied, ParentEdges, Without, ValidNode;
  }

  lemma ImportedDelegate(v: View, d: StoredEvent, work: WorkView, id: Id)
    requires d.event.body.WorkGraphImported? && ApplyWork(v.work, d.event) == Ok(work) && id in work.items
    ensures TouchesDelegate(d, id) ==> NamesDelegate(d, id, work.items[id].delegatedToNodeId)
    ensures !TouchesDelegate(d, id) ==> id in v.work.items && work.items[id].delegatedToNodeId == v.work.items[id].delegatedToNodeId
  {
    hide NodesById;
    var items := d.event.body.graph.workItems;
    WorkItemsByIdKeyed(items);
    if id in WorkItemsById(items) {
      var i :| 0 <= i < |items| && items[i] == WorkItemsById(items)[id];
    }
  }

  lemma DelegateMove(p: Sys, step: Step, s: Sys, id: Id)
    requires Moves(p, step, s) && ItemsKeyed(p.view.work.items) && id in s.view.work.items
    ensures var d := StoredFor(p, step);
            && (TouchesDelegate(d, id) ==> NamesDelegate(d, id, s.view.work.items[id].delegatedToNodeId))
            && (!TouchesDelegate(d, id) ==>
                  id in p.view.work.items && s.view.work.items[id].delegatedToNodeId == p.view.work.items[id].delegatedToNodeId)
  {
    hide Moves, AdmitsWork, ApplyWork, ItemsKeyed, NamesDelegate;
    WorkMove(p, step, s);
    if InArea(step, WorkArea) {
      if step.body.WorkGraphImported? {
        ImportedDelegate(p.view, StoredFor(p, step), s.view.work, id);
      } else {
        DelegateApplied(p.view, step, StoredFor(p, step), s.view.work, id);
      }
    } else {
      ElsewhereUntouched(step, StoredFor(p, step), id);
    }
  }

  lemma ElsewhereUntouched(step: Step, d: StoredEvent, id: Id)
    requires !InArea(step, WorkArea) && d.event.body == step.body
    ensures !TouchesDelegate(d, id)
  {
  }

  /** In every reachable state an item's delegate is the node that the last event about it named: its last delegation, or
      its creation or import if there was none since. */
  lemma {:induction false} DelegateIsLast(s: Sys, id: Id) returns (n: nat)
    requires Reachable(s) && id in s.view.work.items
    ensures n < |s.log| && NamesDelegate(s.log[n], id, s.view.work.items[id].delegatedToNodeId)
    ensures forall m :: n < m < |s.log| ==> !TouchesDelegate(s.log[m], id)
    decreases |s.log|
  {
    hide Reachable, Moves, NamesDelegate, TouchesDelegate, NodesKeyed, ItemsKeyed, EdgesKnown, FindingsKnown, AgentsConsistent, RoutesKeyed;
    if s.log == [] {
      AtStart(s);
    } else {
      var p, step := Before(s);
      KnownReferences(p);
      DelegateMove(p, step, s, id);
      n := |s.log| - 1;
      if !TouchesDelegate(s.log[n], id) {
        n := DelegateIsLast(p, id);
      }
    }
  }

  /** What an import adds: each node and item as it is listed, when identities are listed once. */
  lemma {:induction false} NodesFound(nodes: seq<Node>, i: nat)
    requires i < |nodes| && forall j, k :: 0 <= j < k < |nodes| ==> nodes[j].nodeId != nodes[k].nodeId
    ensures nodes[i].nodeId in NodesById(nodes) && NodesById(nodes)[nodes[i].nodeId] == nodes[i]
  {
    if i < |nodes| - 1 {
      NodesFound(nodes[..|nodes| - 1], i);
    }
  }

  lemma {:induction false} SessionsFound(sessions: seq<HistorySession>, i: nat)
    requires i < |sessions| && forall j, k :: 0 <= j < k < |sessions| ==> sessions[j].sessionRef != sessions[k].sessionRef
    ensures sessions[i].sessionRef in SessionsByRef(sessions) && SessionsByRef(sessions)[sessions[i].sessionRef] == sessions[i]
  {
    if i < |sessions| - 1 {
      SessionsFound(sessions[..|sessions| - 1], i);
    }
  }
}
