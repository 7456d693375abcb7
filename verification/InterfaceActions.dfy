/** The typed actions of an owner turn: the validation of a whole response against a projected
    work graph, with its recursive cycle check, and their application to the Kernel. */
module InterfaceActions {
  import opened Models
  import opened Events
  import opened Ledger
  import opened Views
  import opened Commands
  import opened Consistency
  import opened KernelService
  import opened Runs
  import opened WorkRules
  import opened Graph

  type Deps = map<Id, set<Id>>

  function EdgesOf(deps: Deps): Edges {
    set a, b | a in deps && b in deps[a] :: (a, b)
  }

  /** All identities that the check can come across. */
  function Universe(deps: Deps): set<Id> {
    deps.Keys + set a, b | a in deps && b in deps[a] :: b
  }

  /** The recursive check below one item: it raises when it comes back to an item of its own path. */
  predicate Visit(deps: Deps, id: Id, path: set<Id>)
    requires id in Universe(deps) && path <= Universe(deps)
    decreases |Universe(deps) - path|
  {
    && id !in path
    && (id in deps ==>
          (StrictSubset(Universe(deps) - (path + {id}), Universe(deps) - path, id);
           forall d :: d in deps[id] ==> Visit(deps, d, path + {id})))
  }

  /** The check from every item. */
  predicate VisitAll(deps: Deps) {
    forall id :: id in deps ==> Visit(deps, id, {})
  }

  /** A check that does not raise never meets an item of its path again. */
  lemma {:induction false} VisitedAvoidsPath(deps: Deps, p: seq<Id>, path: set<Id>)
    requires IsPath(EdgesOf(deps), p) && p[0] in Universe(deps) && path <= Universe(deps) && Visit(deps, p[0], path)
    ensures p[|p| - 1] !in path
    decreases |p|
  {
    if |p| > 1 {
      Tail(EdgesOf(deps), p);
      VisitedAvoidsPath(deps, p[1..], path + {p[0]});
    }
  }

  /** Over an acyclic graph the check does not raise below an item that the whole path leads to. */
  lemma {:induction false} AcyclicVisits(deps: Deps, id: Id, path: set<Id>)
    requires Acyclic(EdgesOf(deps)) && id in Universe(deps) && path <= Universe(deps)
    requires forall q :: q in path ==> ReachesLater(EdgesOf(deps), q, id)
    ensures Visit(deps, id, path)
    decreases |Universe(deps) - path|
  {
    hide Acyclic, ReachesLater;
    var g := EdgesOf(deps);
    assert id !in path by { NoCycleAt(g, id); }
    if id in deps {
      StrictSubset(Universe(deps) - (path + {id}), Universe(deps) - path, id);
      forall d | d in deps[id] ensures Visit(deps, d, path + {id}) {
        assert (id, d) in g && d in Universe(deps);
        forall q | q in path + {id} ensures ReachesLater(g, q, d) {
          LaterStep(g, q, id, d);
        }
        AcyclicVisits(deps, d, path + {id});
      }
    }
  }

  lemma NoCycleAt(g: Edges, x: Id)
    requires Acyclic(g)
    ensures !ReachesLater(g, x, x)
  {
  }

  lemma LaterStep(g: Edges, q: Id, id: Id, d: Id)
    requires (id, d) in g && (q == id || ReachesLater(g, q, id))
    ensures ReachesLater(g, q, d)
  {
    if q == id {
      ReachesSelf(g, d);
    } else {
      var z :| (q, z) in g && Reaches(g, z, id);
      Append(g, z, id, d);
    }
  }

  /** On a cycle the check raises. */
  lemma CycleRaises(deps: Deps, x: Id, p: seq<Id>)
    requires IsPath(EdgesOf(deps), p) && (x, p[0]) in EdgesOf(deps) && p[|p| - 1] == x
    ensures !Visit(deps, x, {})
  {
    if Visit(deps, x, {}) {
      assert Visit(deps, p[0], {} + {x});
      VisitedAvoidsPath(deps, p, {} + {x});
    }
  }

  /** The recursive check terminates and accepts exactly the acyclic graphs. */
  lemma VisitAcceptsAcyclic(deps: Deps)
    ensures VisitAll(deps) <==> Acyclic(EdgesOf(deps))
  {
    var g := EdgesOf(deps);
    if x :| ReachesLater(g, x, x) {
      var z :| (x, z) in g && Reaches(g, z, x);
      var p :| IsPath(g, p) && p[0] == z && p[|p| - 1] == x;
      CycleRaises(deps, x, p);
    } else {
      forall id | id in deps ensures Visit(deps, id, {}) {
        AcyclicVisits(deps, id, {});
      }
    }
  }

  // ---- responses

  /** The actions of a response. */
  datatype Action =
    | CreateWork(actionId: Id, item: WorkItem, dependsOn: seq<Id>)
    | Delegate(actionId: Id, workItemId: Id, nodeId: Id)
    | RecordDecision(actionId: Id, supersedes: Option<Id>)
    | UpdateCommitment(actionId: Id, commitmentId: Id, concerns: Option<Id>)
    | Plan(actionId: Id, lease: EffectLease)
    | Complete(actionId: Id, completedId: Id, evidence: CompletionEvidence)
    | SelectPilot(actionId: Id, selectedId: Id, routeKey: string)

  function CreatedIds(actions: seq<Action>): set<Id> {
    set i | 0 <= i < |actions| && actions[i].CreateWork? :: actions[i].item.workItemId
  }

  /** The dependencies of the live work graph, item by item. */
  function LiveDeps(w: WorkView): Deps {
    map id | id in w.items :: set t | t in Targets(w.edges, id)
  }

  /** The projected dependencies: a later creation of the same identity replaces the earlier one. */
  function ProjectedDeps(w: WorkView, actions: seq<Action>): Deps {
    if actions == [] then LiveDeps(w)
    else
      var front, last := ProjectedDeps(w, actions[..|actions| - 1]), actions[|actions| - 1];
      if last.CreateWork? then front[last.item.workItemId := set d | d in last.dependsOn] else front
  }

  /** The projected items after one more action: created ones, and delegated ones as they will be. */
  function ProjectedNext(work: map<Id, WorkItem>, a: Action): map<Id, WorkItem> {
    match a
    case CreateWork(_, item, _) => work[item.workItemId := item]
    case Delegate(_, id, nodeId) => if id in work then work[id := work[id].(delegatedToNodeId := nodeId, state := Ready)] else work
    case _ => work
  }

  function ProjectedWork(w: WorkView, actions: seq<Action>): map<Id, WorkItem> {
    if actions == [] then w.items else ProjectedNext(ProjectedWork(w, actions[..|actions| - 1]), actions[|actions| - 1])
  }

  /** Known decisions and all those of the response, whatever their position. */
  function DecisionIds(known: set<Id>, actions: seq<Action>): set<Id> {
    known + set i | 0 <= i < |actions| && actions[i].RecordDecision? :: actions[i].actionId
  }

  /** A decision may be superseded when it is known or recorded anywhere in the response. */
  lemma DecisionMeans(known: set<Id>, actions: seq<Action>, id: Id)
    ensures id in DecisionIds(known, actions)
            <==> id in known || exists i :: 0 <= i < |actions| && actions[i].RecordDecision? && actions[i].actionId == id
  {
  }

  /** The check of one action against what the earlier ones project. */
  predicate ActionOk(v: View, decisions: set<Id>, work: map<Id, WorkItem>, a: Action, now: Time) {
    match a
    case CreateWork(_, w, dependsOn) =>
      && w.dataSpaceId == v.dataSpaceId && w.state in {Proposed, Ready} && w.evidence.None? && w.blockers == []
      && w.acceptanceCriteria != [] && WorkNodesKnown(w, v.work.nodes)
      && (w.parentWorkItemId.Some? ==> w.parentWorkItemId.value in work)
      && (forall i :: 0 <= i < |dependsOn| ==> dependsOn[i] in work)
    case Delegate(_, id, nodeId) =>
      && id in work && nodeId in v.work.nodes && work[id].state in {Proposed, Ready}
      && (forall k :: k in v.agents.executions ==> v.agents.executions[k].workItemId != id)
    case Plan(_, l) =>
      && l.dataSpaceId == v.dataSpaceId && l.executionId in v.agents.executions
      && v.agents.executions[l.executionId].workItemId == l.workItemId && now < l.expiresAt && l.state.PlannedLease?
    case Complete(_, id, evidence) => id in work && work[id].blockers == [] && GatesSatisfied(evidence)
    case RecordDecision(_, supersedes) => supersedes.Some? ==> supersedes.value in decisions
    case UpdateCommitment(_, _, concerns) => concerns.Some? ==> concerns.value in work
    case SelectPilot(_, id, routeKey) => id in work && work[id].routeKey == routeKey
  }

  /** Why a creation or a delegation is not fine, check by check. */
  predicate PlacingErrs(v: View, work: map<Id, WorkItem>, a: Action)
    requires a.CreateWork? || a.Delegate?
  {
    if a.CreateWork? then
      || a.item.dataSpaceId != v.dataSpaceId || (a.item.state != Proposed && a.item.state != Ready) || a.item.evidence.Some?
      || |a.item.blockers| > 0 || |a.item.acceptanceCriteria| == 0
      || a.item.ownerNodeId !in v.work.nodes || a.item.delegatedToNodeId !in v.work.nodes || a.item.integrationOwnerNodeId !in v.work.nodes
      || (a.item.parentWorkItemId.Some? && a.item.parentWorkItemId.value !in work)
      || (exists i :: 0 <= i < |a.dependsOn| && a.dependsOn[i] !in work)
    else
      || a.workItemId !in work || a.nodeId !in v.work.nodes || (work[a.workItemId].state != Proposed && work[a.workItemId].state != Ready)
      || (exists k :: k in v.agents.executions && v.agents.executions[k].workItemId == a.workItemId)
  }

  /** Why any other action is not fine. */
  predicate OtherErrs(v: View, decisions: set<Id>, work: map<Id, WorkItem>, a: Action, now: Time)
    requires !a.CreateWork? && !a.Delegate?
  {
    var xs := v.agents.executions;
    if a.Plan? then
      || a.lease.dataSpaceId != v.dataSpaceId || a.lease.executionId !in xs || xs[a.lease.executionId].workItemId != a.lease.workItemId
      || a.lease.expiresAt <= now || a.lease.state != PlannedLease
    else if a.Complete? then
      || a.completedId !in work || |work[a.completedId].blockers| > 0 || !a.evidence.acceptanceSatisfied || !a.evidence.requiredTestsPassed
      || |a.evidence.blockingDeviations| > 0 || !a.evidence.independentGate || !a.evidence.integrationBranchMerged || !a.evidence.remotePushSucceeded
    else if a.RecordDecision? then a.supersedes.Some? && a.supersedes.value !in decisions
    else if a.UpdateCommitment? then a.concerns.Some? && a.concerns.value !in work
    else a.selectedId !in work || work[a.selectedId].routeKey != a.routeKey
  }

  lemma ActionOkUnlessErrs(v: View, decisions: set<Id>, work: map<Id, WorkItem>, a: Action, now: Time)
    ensures ActionOk(v, decisions, work, a, now)
            <==> if a.CreateWork? || a.Delegate? then !PlacingErrs(v, work, a) else !OtherErrs(v, decisions, work, a, now)
  {
  }

  /** What the later actions of a response see: created items as given, delegated ones ready with their new delegate. */
  lemma ProjectionMeans(w: WorkView, actions: seq<Action>, a: Action)
    ensures a.CreateWork? ==> ProjectedWork(w, actions + [a]) == ProjectedWork(w, actions)[a.item.workItemId := a.item]
    ensures a.Delegate? && a.workItemId in ProjectedWork(w, actions) ==>
              ProjectedWork(w, actions + [a]) ==
                ProjectedWork(w, actions)[a.workItemId := ProjectedWork(w, actions)[a.workItemId].(state := Ready, delegatedToNodeId := a.nodeId)]
    ensures !a.CreateWork? && !a.Delegate? ==> ProjectedWork(w, actions + [a]) == ProjectedWork(w, actions)
    ensures ProjectedWork(w, []) == w.items
  {
    ProjectedSnoc(w, actions, a);
  }

  /** A response that passes: distinct actions, new identities, every action fine, and no cycle in what they project. */
  ghost predicate Validated(v: View, known: set<Id>, actions: seq<Action>, now: Time) {
    && (forall i, j :: 0 <= i < j < |actions| ==> actions[i].actionId != actions[j].actionId)
    && CreatedIds(actions) !! v.work.items.Keys
    && (forall i :: 0 <= i < |actions| ==> ActionOk(v, DecisionIds(known, actions), ProjectedWork(v.work, actions[..i]), actions[i], now))
    && Acyclic(EdgesOf(ProjectedDeps(v.work, actions)))
  }

  lemma ProjectedSnoc(w: WorkView, actions: seq<Action>, a: Action)
    ensures ProjectedDeps(w, actions + [a]) ==
              if a.CreateWork? then ProjectedDeps(w, actions)[a.item.workItemId := set d | d in a.dependsOn] else ProjectedDeps(w, actions)
    ensures ProjectedWork(w, actions + [a]) == ProjectedNext(ProjectedWork(w, actions), a)
  {
    assert (actions + [a])[..|actions|] == actions;
  }

  lemma ProjectedNone(w: WorkView, actions: seq<Action>)
    ensures ProjectedWork(w, actions[..0]) == w.items && ProjectedDeps(w, actions[..0]) == LiveDeps(w)
  {
  }

  /** Projects the actions one by one and runs the recursive check at the end. */
  method ValidateActions(v: View, known: set<Id>, actions: seq<Action>, now: Time) returns (ok: bool)
    ensures ok <==> Validated(v, known, actions, now)
  {
    hide ActionOk, Acyclic, Visit, EdgesOf, ProjectedWork, ProjectedDeps, CreatedIds, LiveDeps, DecisionIds;
    if exists i, j :: 0 <= i < j < |actions| && actions[i].actionId == actions[j].actionId {
      return false;
    }
    if !(CreatedIds(actions) !! v.work.items.Keys) {
      return false;
    }
    var work, deps, decisions := v.work.items, LiveDeps(v.work), DecisionIds(known, actions);
    ProjectedNone(v.work, actions);
    for n := 0 to |actions|
      invariant work == ProjectedWork(v.work, actions[..n]) && deps == ProjectedDeps(v.work, actions[..n])
      invariant forall i :: 0 <= i < n ==> ActionOk(v, DecisionIds(known, actions), ProjectedWork(v.work, actions[..i]), actions[i], now)
    {
      var a := actions[n];
      if !ActionOk(v, decisions, work, a, now) {
        return false;
      }
      assert actions[..n + 1] == actions[..n] + [a];
      ProjectedSnoc(v.work, actions[..n], a);
      match a {
      case CreateWork(_, item, dependsOn) =>
        work := work[item.workItemId := item];
        deps := deps[item.workItemId := set d | d in dependsOn];
      case Delegate(_, id, nodeId) =>
        if id in work {
          work := work[id := work[id].(delegatedToNodeId := nodeId, state := Ready)];
        }
      case _ =>
      }
    }
    assert actions[..|actions|] == actions;
    VisitAcceptsAcyclic(deps);
    return VisitAll(deps);
  }

  // ---- what validation predicts

  /** The dependencies that applying the actions would add, in order. */
  function AddedEdges(actions: seq<Action>): Edges {
    set i, j | 0 <= i < |actions| && actions[i].CreateWork? && 0 <= j < |actions[i].dependsOn| :: (actions[i].item.workItemId, actions[i].dependsOn[j])
  }

  /** The Kernel's graph after all actions: unlike the projection, it never forgets an edge. */
  function Accumulated(w: WorkView, actions: seq<Action>): Edges {
    Dependencies(w.edges) + AddedEdges(actions)
  }

  predicate DistinctCreations(actions: seq<Action>) {
    forall i, j :: 0 <= i < j < |actions| && actions[i].CreateWork? && actions[j].CreateWork? ==>
      actions[i].item.workItemId != actions[j].item.workItemId
  }

  /** The dependency passes the Kernel's three graph checks: known items, not on itself, no cycle. */
  ghost predicate Addable(w: WorkView, id: Id, dependency: Id) {
    id in w.items && dependency in w.items && id != dependency && !Reaches(Dependencies(w.edges), dependency, id)
  }

  /** The projected graph has a node for every known and created item. */
  lemma {:induction false} ProjectedKeys(w: WorkView, actions: seq<Action>)
    ensures ProjectedDeps(w, actions).Keys == w.items.Keys + CreatedIds(actions)
    ensures ProjectedWork(w, actions).Keys == w.items.Keys + CreatedIds(actions)
  {
    if actions != [] {
      ProjectedKeys(w, actions[..|actions| - 1]);
      CreatedSnoc(actions);
    }
  }

  lemma CreatedSnoc(actions: seq<Action>)
    requires actions != []
    ensures var last := actions[|actions| - 1];
            CreatedIds(actions) == CreatedIds(actions[..|actions| - 1]) + if last.CreateWork? then {last.item.workItemId} else {}
  {
    var front, last := actions[..|actions| - 1], actions[|actions| - 1];
    forall id | id in CreatedIds(actions) ensures id in CreatedIds(front) + if last.CreateWork? then {last.item.workItemId} else {} {
      var i :| 0 <= i < |actions| && actions[i].CreateWork? && actions[i].item.workItemId == id;
      if i < |front| { assert front[i] == actions[i]; }
    }
    forall id | id in CreatedIds(front) ensures id in CreatedIds(actions) {
      var i :| 0 <= i < |front| && front[i].CreateWork? && front[i].item.workItemId == id;
      assert actions[i] == front[i];
    }
  }

  /** The edges of one creation. */
  function EdgesFrom(id: Id, targets: seq<Id>): Edges {
    set j | 0 <= j < |targets| :: (id, targets[j])
  }

  lemma AddedSnoc(actions: seq<Action>)
    requires actions != []
    ensures var last := actions[|actions| - 1];
            AddedEdges(actions) ==
              AddedEdges(actions[..|actions| - 1]) + if last.CreateWork? then EdgesFrom(last.item.workItemId, last.dependsOn) else {}
  {
    var front, last := actions[..|actions| - 1], actions[|actions| - 1];
    var more := if last.CreateWork? then EdgesFrom(last.item.workItemId, last.dependsOn) else {};
    forall e | e in AddedEdges(actions) ensures e in AddedEdges(front) + more {
      var i, j :| 0 <= i < |actions| && actions[i].CreateWork? && 0 <= j < |actions[i].dependsOn| && e == (actions[i].item.workItemId, actions[i].dependsOn[j]);
      if i < |front| { assert front[i] == actions[i]; }
    }
    forall e | e in AddedEdges(front) ensures e in AddedEdges(actions) {
      var i, j :| 0 <= i < |front| && front[i].CreateWork? && 0 <= j < |front[i].dependsOn| && e == (front[i].item.workItemId, front[i].dependsOn[j]);
      assert actions[i] == front[i];
    }
    if last.CreateWork? {
      forall e | e in more ensures e in AddedEdges(actions) {
        var j :| 0 <= j < |last.dependsOn| && e == (last.item.workItemId, last.dependsOn[j]);
        assert actions[|actions| - 1] == last;
      }
    }
  }

  lemma LiveEdges(w: WorkView)
    requires EdgesKnown(w.edges, w.items)
    ensures EdgesOf(LiveDeps(w)) == Dependencies(w.edges)
  {
    forall a, b ensures (a, b) in EdgesOf(LiveDeps(w)) <==> (a, b) in Dependencies(w.edges) {
      InDependencies(w.edges, a, b);
    }
  }

  /** When no identity is created twice, the projection forgets nothing: it is the Kernel's graph after all actions. */
  lemma {:induction false} ProjectionIsAccumulation(w: WorkView, actions: seq<Action>)
    requires EdgesKnown(w.edges, w.items) && CreatedIds(actions) !! w.items.Keys && DistinctCreations(actions)
    ensures EdgesOf(ProjectedDeps(w, actions)) == Accumulated(w, actions)
  {
    hide Dependencies, EdgesKnown;
    if actions == [] {
      LiveEdges(w);
      assert AddedEdges(actions) == {};
    } else {
      var front, last := actions[..|actions| - 1], actions[|actions| - 1];
      CreatedSnoc(actions);
      AddedSnoc(actions);
      assert forall i :: 0 <= i < |front| ==> front[i] == actions[i];
      ProjectionIsAccumulation(w, front);
      ProjectedKeys(w, front);
      if last.CreateWork? {
        var id := last.item.workItemId;
        assert id !in CreatedIds(front);
        NewKeyEdges(ProjectedDeps(w, front), id, last.dependsOn);
      }
    }
  }

  lemma NewKeyEdges(deps: Deps, id: Id, targets: seq<Id>)
    requires id !in deps
    ensures EdgesOf(deps[id := set d | d in targets]) == EdgesOf(deps) + EdgesFrom(id, targets)
  {
    var more := deps[id := set d | d in targets];
    forall a, b ensures (a, b) in EdgesOf(more) <==> (a, b) in EdgesOf(deps) + EdgesFrom(id, targets) {
      if a == id && b in targets {
        var j :| 0 <= j < |targets| && targets[j] == b;
        assert (id, targets[j]) in EdgesFrom(id, targets);
      }
    }
  }

  /** A response with distinct creations that passes the validation also accumulates to an acyclic graph. */
  lemma DistinctAccumulateAcyclic(v: View, known: set<Id>, actions: seq<Action>, now: Time)
    requires Validated(v, known, actions, now) && DistinctCreations(actions) && EdgesKnown(v.work.edges, v.work.items)
    ensures Acyclic(Accumulated(v.work, actions))
  {
    hide Acyclic, ActionOk, EdgesKnown;
    ProjectionIsAccumulation(v.work, actions);
  }

  /** Adding the edges in order, none is refused for a cycle. */
  ghost predicate AllAddable(g: Edges, added: seq<(Id, Id)>)
    decreases |added|
  {
    added == [] || (!Reaches(g, added[0].1, added[0].0) && AllAddable(g + {added[0]}, added[1..]))
  }

  /** Starting from an acyclic graph, no edge is refused exactly when the final graph is acyclic, in any order. */
  lemma {:induction false} AllAddableIff(g: Edges, added: seq<(Id, Id)>)
    requires Acyclic(g)
    ensures AllAddable(g, added) <==> Acyclic(g + set e | e in added)
    decreases |added|
  {
    hide Acyclic, Reaches;
    if added == [] {
      assert g + (set e | e in added) == g;
    } else {
      var first, rest := added[0], added[1..];
      assert added == [first] + rest;
      assert g + (set e | e in added) == (g + {first}) + (set e | e in rest);
      AddEdge(g, first.0, first.1);
      if !Reaches(g, first.1, first.0) {
        AllAddableIff(g + {first}, rest);
      } else {
        CyclicStays(g + {first}, g + set e | e in added);
      }
    }
  }

  lemma CyclicStays(g: Edges, h: Edges)
    requires g <= h && !Acyclic(g)
    ensures !Acyclic(h)
  {
    var x :| ReachesLater(g, x, x);
    var z :| (x, z) in g && Reaches(g, z, x);
    Monotone(g, h, z, x);
    assert ReachesLater(h, x, x);
  }

  /** The dependencies in the order in which the actions add them. */
  function EdgeList(actions: seq<Action>): seq<(Id, Id)> {
    if actions == [] then []
    else
      var last := actions[|actions| - 1];
      EdgeList(actions[..|actions| - 1])
      + if last.CreateWork? then seq(|last.dependsOn|, j requires 0 <= j < |last.dependsOn| => (last.item.workItemId, last.dependsOn[j])) else []
  }

  lemma {:induction false} EdgeListAdds(actions: seq<Action>)
    ensures (set e | e in EdgeList(actions)) == AddedEdges(actions)
  {
    if actions == [] {
      assert AddedEdges(actions) == {};
    } else {
      var front, last := actions[..|actions| - 1], actions[|actions| - 1];
      EdgeListAdds(front);
      AddedSnoc(actions);
      if last.CreateWork? {
        var more := seq(|last.dependsOn|, j requires 0 <= j < |last.dependsOn| => (last.item.workItemId, last.dependsOn[j]));
        assert (set e | e in more) == EdgesFrom(last.item.workItemId, last.dependsOn) by {
          forall j | 0 <= j < |last.dependsOn| ensures (last.item.workItemId, last.dependsOn[j]) in more { assert more[j] in more; }
        }
        assert EdgeList(actions) == EdgeList(front) + more;
      }
    }
  }

  /** The live dependencies are part of what a validated response projects. */
  lemma {:induction false} LiveWithinProjected(w: WorkView, actions: seq<Action>)
    requires CreatedIds(actions) !! w.items.Keys
    ensures EdgesOf(LiveDeps(w)) <= EdgesOf(ProjectedDeps(w, actions))
    ensures forall k :: k in w.items ==> k in ProjectedDeps(w, actions) && ProjectedDeps(w, actions)[k] == LiveDeps(w)[k]
  {
    if actions != [] {
      CreatedSnoc(actions);
      LiveWithinProjected(w, actions[..|actions| - 1]);
    }
  }

  /** For a validated response the Kernel refuses none of its dependencies for a cycle exactly when the accumulated
      graph is acyclic, which distinct creations guarantee. */
  lemma ValidationPredictsKernel(v: View, known: set<Id>, actions: seq<Action>, now: Time)
    requires Validated(v, known, actions, now) && EdgesKnown(v.work.edges, v.work.items)
    ensures AllAddable(Dependencies(v.work.edges), EdgeList(actions)) <==> Acyclic(Accumulated(v.work, actions))
    ensures DistinctCreations(actions) ==> AllAddable(Dependencies(v.work.edges), EdgeList(actions))
  {
    hide Acyclic, ActionOk, EdgesKnown, Dependencies, AllAddable;
    LiveEdges(v.work);
    LiveWithinProjected(v.work, actions);
    if !Acyclic(Dependencies(v.work.edges)) {
      CyclicStays(Dependencies(v.work.edges), EdgesOf(ProjectedDeps(v.work, actions)));
    }
    AllAddableIff(Dependencies(v.work.edges), EdgeList(actions));
    EdgeListAdds(actions);
    if DistinctCreations(actions) {
      DistinctAccumulateAcyclic(v, known, actions, now);
    }
  }

  // ---- where the validation misleads

  /** The response that creates `b`, then `a` depending on `b`, then `a` again without dependencies, then `b` again depending on `a`. */
  function RepeatedResponse(itemA: WorkItem, itemB: WorkItem): seq<Action> {
    [CreateWork("1", itemB, []), CreateWork("2", itemA, [itemB.workItemId]), CreateWork("3", itemA, []), CreateWork("4", itemB, [itemA.workItemId])]
  }

  lemma RepeatedProjection(w: WorkView, itemA: WorkItem, itemB: WorkItem)
    requires itemA.workItemId != itemB.workItemId
    ensures var r, a, b := RepeatedResponse(itemA, itemB), itemA.workItemId, itemB.workItemId;
            && ProjectedDeps(w, r) == LiveDeps(w)[b := {a}][a := {}]
            && ProjectedWork(w, r[..0]) == w.items && ProjectedWork(w, r[..1]) == w.items[b := itemB]
            && ProjectedWork(w, r[..2]) == w.items[b := itemB][a := itemA] && ProjectedWork(w, r[..3]) == w.items[b := itemB][a := itemA]
  {
    var r := RepeatedResponse(itemA, itemB);
    assert r[..0] == [] && r[..1] == [] + [r[0]] && r[..2] == r[..1] + [r[1]] && r[..3] == r[..2] + [r[2]] && r == r[..3] + [r[3]];
    ProjectedSnoc(w, [], r[0]);
    ProjectedSnoc(w, r[..1], r[1]);
    ProjectedSnoc(w, r[..2], r[2]);
    ProjectedSnoc(w, r[..3], r[3]);
    assert (set d | d in r[0].dependsOn) == {} && (set d | d in r[1].dependsOn) == {itemB.workItemId};
    assert (set d | d in r[2].dependsOn) == {} && (set d | d in r[3].dependsOn) == {itemA.workItemId};
  }

  /** Dependencies on known items do not change whether a creation is fine. */
  lemma MoreDependencies(v: View, decisions: set<Id>, work: map<Id, WorkItem>, more: map<Id, WorkItem>,
      id: Id, again: Id, item: WorkItem, dependsOn: seq<Id>, now: Time)
    requires ActionOk(v, {}, work, CreateWork(id, item, []), now) && work.Keys <= more.Keys
    requires forall d :: d in dependsOn ==> d in more
    ensures ActionOk(v, decisions, more, CreateWork(again, item, dependsOn), now)
  {
  }

  lemma RepeatedActionsOk(v: View, known: set<Id>, itemA: WorkItem, itemB: WorkItem, now: Time)
    requires itemA.workItemId != itemB.workItemId
    requires ActionOk(v, {}, v.work.items, CreateWork("3", itemA, []), now) && ActionOk(v, {}, v.work.items, CreateWork("1", itemB, []), now)
    ensures var r := RepeatedResponse(itemA, itemB);
            forall i :: 0 <= i < |r| ==> ActionOk(v, DecisionIds(known, r), ProjectedWork(v.work, r[..i]), r[i], now)
  {
    hide ActionOk, DecisionIds, ProjectedWork;
    var r, ids := RepeatedResponse(itemA, itemB), DecisionIds(known, RepeatedResponse(itemA, itemB));
    RepeatedProjection(v.work, itemA, itemB);
    MoreDependencies(v, ids, v.work.items, ProjectedWork(v.work, r[..0]), "1", "1", itemB, [], now);
    MoreDependencies(v, ids, v.work.items, ProjectedWork(v.work, r[..1]), "3", "2", itemA, [itemB.workItemId], now);
    MoreDependencies(v, ids, v.work.items, ProjectedWork(v.work, r[..2]), "3", "3", itemA, [], now);
    MoreDependencies(v, ids, v.work.items, ProjectedWork(v.work, r[..3]), "1", "4", itemB, [itemA.workItemId], now);
  }

  lemma RepeatedCycle(w: WorkView, itemA: WorkItem, itemB: WorkItem)
    ensures !Acyclic(Accumulated(w, RepeatedResponse(itemA, itemB)))
  {
    var r, a, b := RepeatedResponse(itemA, itemB), itemA.workItemId, itemB.workItemId;
    var g := Accumulated(w, r);
    assert r[1].dependsOn[0] == b && r[3].dependsOn[0] == a;
    assert (a, b) in g && (b, a) in g;
    ReachesSelf(g, a);
    Prepend(g, b, a, a);
    assert ReachesLater(g, a, a);
  }

  /** A node without outgoing edges reaches only itself. */
  lemma SinkReaches(g: Edges, a: Id, b: Id)
    requires a != b && forall z :: (a, z) !in g
    ensures !Reaches(g, a, b)
  {
    if Reaches(g, a, b) {
      var p :| IsPath(g, p) && p[0] == a && p[|p| - 1] == b;
      assert |p| > 1;
      Tail(g, p);
    }
  }

  lemma NewItemIsSink(w: WorkView, a: Id)
    requires EdgesKnown(w.edges, w.items) && a !in w.items
    ensures forall z :: (a, z) !in Dependencies(w.edges)
  {
    forall z ensures (a, z) !in Dependencies(w.edges) { InDependencies(w.edges, a, z); }
  }

  lemma RepeatedEdges(w: WorkView, a: Id, b: Id)
    requires EdgesKnown(w.edges, w.items) && a !in w.items && b !in w.items && a != b
    ensures EdgesOf(LiveDeps(w)[b := {a}][a := {}]) == Dependencies(w.edges) + {(b, a)}
  {
    LiveEdges(w);
    NewItemIsSink(w, a);
    NewItemIsSink(w, b);
    forall x, y ensures (x, y) in EdgesOf(LiveDeps(w)[b := {a}][a := {}]) <==> (x, y) in EdgesOf(LiveDeps(w)) + {(b, a)} { }
  }

  lemma RepeatedValidated(v: View, known: set<Id>, itemA: WorkItem, itemB: WorkItem, now: Time)
    requires EdgesKnown(v.work.edges, v.work.items) && Acyclic(Dependencies(v.work.edges))
    requires itemA.workItemId != itemB.workItemId && itemA.workItemId !in v.work.items && itemB.workItemId !in v.work.items
    requires ActionOk(v, {}, v.work.items, CreateWork("3", itemA, []), now) && ActionOk(v, {}, v.work.items, CreateWork("1", itemB, []), now)
    ensures Validated(v, known, RepeatedResponse(itemA, itemB), now)
  {
    hide Acyclic, Dependencies, ActionOk, ProjectedWork, ProjectedDeps, EdgesKnown, EdgesOf, LiveDeps;
    var a, b, g := itemA.workItemId, itemB.workItemId, Dependencies(v.work.edges);
    RepeatedActionsOk(v, known, itemA, itemB, now);
    RepeatedProjection(v.work, itemA, itemB);
    RepeatedEdges(v.work, a, b);
    NewItemIsSink(v.work, a);
    SinkReaches(g, a, b);
    AddEdge(g, b, a);
  }

  lemma RepeatedRefused(w: WorkView, itemA: WorkItem, itemB: WorkItem)
    requires EdgesKnown(w.edges, w.items) && Acyclic(Dependencies(w.edges))
    requires itemA.workItemId != itemB.workItemId && itemB.workItemId !in w.items
    ensures var r, g := RepeatedResponse(itemA, itemB), Dependencies(w.edges);
            AllAddable(g, EdgeList(r[..3])) && !AllAddable(g, EdgeList(r))
  {
    hide Acyclic, Dependencies, EdgesKnown, AllAddable, AddedEdges, EdgeList;
    var r, a, b, g := RepeatedResponse(itemA, itemB), itemA.workItemId, itemB.workItemId, Dependencies(w.edges);
    NewItemIsSink(w, b);
    SinkReaches(g, b, a);
    AddEdge(g, a, b);
    RepeatedList(itemA, itemB);
    AllAddableIff(g, EdgeList(r[..3]));
    assert (set e | e in [(a, b)]) == {(a, b)};
    RepeatedCycle(w, itemA, itemB);
    AllAddableIff(g, EdgeList(r));
    EdgeListAdds(r);
  }

  /** With repeated identities the projection forgets edges that the Kernel keeps. Over any acyclic live graph and
      for any two new items, this response passes the validation; the Kernel takes its first dependency and
      refuses the last for a cycle. */
  lemma RepeatedCreationMisleads(v: View, known: set<Id>, itemA: WorkItem, itemB: WorkItem, now: Time)
    requires EdgesKnown(v.work.edges, v.work.items) && Acyclic(Dependencies(v.work.edges))
    requires itemA.workItemId != itemB.workItemId && itemA.workItemId !in v.work.items && itemB.workItemId !in v.work.items
    requires ActionOk(v, {}, v.work.items, CreateWork("3", itemA, []), now) && ActionOk(v, {}, v.work.items, CreateWork("1", itemB, []), now)
    ensures var r, g := RepeatedResponse(itemA, itemB), Dependencies(v.work.edges);
            Validated(v, known, r, now) && AllAddable(g, EdgeList(r[..3])) && !AllAddable(g, EdgeList(r))
  {
    hide Acyclic, Dependencies, ActionOk, EdgesKnown, AllAddable, EdgeList, Validated;
    RepeatedValidated(v, known, itemA, itemB, now);
    RepeatedRefused(v.work, itemA, itemB);
  }

  lemma RepeatedList(itemA: WorkItem, itemB: WorkItem)
    ensures EdgeList(RepeatedResponse(itemA, itemB)[..3]) == [(itemA.workItemId, itemB.workItemId)]
  {
    var r := RepeatedResponse(itemA, itemB);
    assert r[..3][..2] == r[..2] && r[..2][..1] == r[..1] && r[..1][..0] == [];
    assert EdgeList(r[..1]) == [];
    assert EdgeList(r[..2]) == [(itemA.workItemId, itemB.workItemId)];
  }

  // ---- a dependency that is listed twice

  function TwiceListed(item: WorkItem, d: Id): seq<Action> {
    [CreateWork("1", item, [d, d])]
  }

  /** A node without incoming edges is reached only from itself. */
  lemma SourceUnreached(g: Edges, a: Id, b: Id)
    requires a != b && forall z :: (z, b) !in g
    ensures !Reaches(g, a, b)
  {
    if Reaches(g, a, b) {
      var p :| IsPath(g, p) && p[0] == a && p[|p| - 1] == b;
      var _ := LastEdge(g, p);
    }
  }

  lemma LastEdge(g: Edges, p: seq<Id>) returns (z: Id)
    requires IsPath(g, p) && |p| > 1
    ensures (z, p[|p| - 1]) in g
  {
    z := p[|p| - 2];
    assert (p[|p| - 2], p[|p| - 2 + 1]) in g;
  }

  lemma TwiceListedProjects(w: WorkView, item: WorkItem, d: Id)
    requires EdgesKnown(w.edges, w.items) && item.workItemId !in w.items
    ensures var r := TwiceListed(item, d);
            && ProjectedWork(w, r[..0]) == w.items && CreatedIds(r) == {item.workItemId}
            && EdgesOf(ProjectedDeps(w, r)) == Dependencies(w.edges) + {(item.workItemId, d)}
  {
    hide Dependencies, EdgesKnown;
    var r := TwiceListed(item, d);
    assert r == [] + [r[0]] && r[..0] == [];
    ProjectedSnoc(w, [], r[0]);
    ProjectedNone(w, r);
    NewKeyEdges(LiveDeps(w), item.workItemId, [d, d]);
    LiveEdges(w);
    assert [d, d][0] == d && EdgesFrom(item.workItemId, [d, d]) == {(item.workItemId, d)};
    assert r[0].item.workItemId == item.workItemId;
  }

  /** Over any acyclic live graph, for any new item and any known one: a response that lists the same dependency twice
      passes the validation. */
  lemma TwiceListedValidated(v: View, known: set<Id>, item: WorkItem, d: Id, now: Time)
    requires EdgesKnown(v.work.edges, v.work.items) && Acyclic(Dependencies(v.work.edges))
    requires item.workItemId !in v.work.items && d in v.work.items && ActionOk(v, {}, v.work.items, CreateWork("1", item, []), now)
    ensures Validated(v, known, TwiceListed(item, d), now)
  {
    hide Acyclic, Dependencies, ActionOk, ProjectedWork, ProjectedDeps, EdgesOf, Reaches, CreatedIds;
    var r, id, g := TwiceListed(item, d), item.workItemId, Dependencies(v.work.edges);
    TwiceListedProjects(v.work, item, d);
    MoreDependencies(v, DecisionIds(known, r), v.work.items, v.work.items, "1", "1", item, [d, d], now);
    forall z ensures (z, id) !in g { InDependencies(v.work.edges, z, id); }
    SourceUnreached(g, d, id);
    AddEdge(g, id, d);
  }
}
