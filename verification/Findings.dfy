/** S3* findings over whole runs: a severe finding blocks its item from the moment it is recorded, and how long. */
module Findings {
  import opened Models
  import opened Events
  import opened Ledger
  import opened Views
  import opened Commands
  import opened Consistency
  import opened Runs
  import opened Acceptance
  import opened Witness
  import Graph

  /** The finding is severe, not accepted, on this item, and among its blockers. */
  ghost predicate Blocks(w: WorkView, findingId: Id, itemId: Id) {
    && findingId in w.findings && w.findings[findingId].severity.Severe? && !w.findings[findingId].acceptedByS5
    && w.findings[findingId].workItemId == itemId
    && itemId in w.items && findingId in w.items[itemId].blockers
  }

  /** The event creates the item anew, accepts the risk of the finding, or records the finding anew as advisory or on
      another item. */
  predicate Releases(b: EventBody, findingId: Id, itemId: Id) {
    || (b.WorkItemCreated? && b.workItem.workItemId == itemId)
    || (b.RiskAccepted? && b.findingId == findingId)
    || (b.FindingRecorded? && b.finding.findingId == findingId && (b.finding.severity.Advisory? || b.finding.workItemId != itemId))
  }

  /** The event completes the item. */
  predicate Completes(d: StoredEvent, itemId: Id) {
    d.event.body.WorkItemCompleted? && d.event.streamId == itemId
  }

  /** The event records the finding as severe. */
  predicate RecordsSevere(b: EventBody, findingId: Id, itemId: Id) {
    b.FindingRecorded? && b.finding.findingId == findingId && b.finding.workItemId == itemId && b.finding.severity.Severe?
  }

  lemma {:induction false} WithoutKeeps(xs: seq<Id>, x: Id, y: Id)
    ensures y in Without(xs, x) <==> y in xs && y != x
  {
    if xs != [] {
      WithoutKeeps(xs[..|xs| - 1], x, y);
      assert xs == xs[..|xs| - 1] + [xs[|xs| - 1]];
    }
  }

  lemma ImportKeepsItem(v: View, g: WorkGraph, itemId: Id)
    requires ImportOk(v, g) && itemId in v.work.items
    ensures itemId !in WorkItemsById(g.workItems)
  {
    assert forall w :: w in g.workItems ==> w.workItemId !in v.work.items;
    WorkItemsByIdKeyed(g.workItems);
  }

  lemma FindingApplied(v: View, step: Step, e: Event, work: WorkView, findingId: Id, itemId: Id)
    requires AdmitsWork(v, step) && e.body == step.body && e.streamId == step.streamId && ApplyWork(v.work, e) == Ok(work)
    requires ItemsKeyed(v.work.items) && Blocks(v.work, findingId, itemId)
    requires step.body.FindingRecorded? || step.body.RiskAccepted?
    ensures Blocks(work, findingId, itemId) <==> !Releases(step.body, findingId, itemId)
  {
    hide Graph.Reaches, Graph.Dependencies, DependenciesCompleted, NodesById, WorkItemsById, Without, ResumeOk, GatesSatisfied, ParentEdges, ValidNode,
      ImportOk, WorkNodesKnown;
    if step.body.RiskAccepted? {
      WithoutKeeps(v.work.items[itemId].blockers, step.body.findingId, findingId);
    }
  }

  lemma OtherApplied(v: View, step: Step, e: Event, work: WorkView, findingId: Id, itemId: Id)
    requires AdmitsWork(v, step) && e.body == step.body && e.streamId == step.streamId && ApplyWork(v.work, e) == Ok(work)
    requires ItemsKeyed(v.work.items) && Blocks(v.work, findingId, itemId)
    requires !step.body.FindingRecorded? && !step.body.RiskAccepted?
    ensures Blocks(work, findingId, itemId) <==> !Releases(step.body, findingId, itemId)
  {
    hide Graph.Reaches, Graph.Dependencies, DependenciesCompleted, NodesById, WorkItemsById, Without, ResumeOk, GatesSatisfied, ParentEdges, ValidNode,
      ImportOk, WorkNodesKnown;
    if step.body.WorkGraphImported? {
      ImportKeepsItem(v, step.body.graph, itemId);
    }
  }

  lemma RecordedApplied(v: View, step: Step, e: Event, work: WorkView, findingId: Id, itemId: Id)
    requires AdmitsWork(v, step) && e.body == step.body && e.streamId == step.streamId && ApplyWork(v.work, e) == Ok(work)
    requires ItemsKeyed(v.work.items)
    ensures RecordsSevere(step.body, findingId, itemId) ==> Blocks(work, findingId, itemId)
    ensures step.body.WorkItemCompleted? && step.streamId == itemId ==> !Blocks(v.work, findingId, itemId)
  {
    hide Graph.Reaches, Graph.Dependencies, DependenciesCompleted, NodesById, WorkItemsById, Without, ResumeOk, GatesSatisfied, ParentEdges, ValidNode,
      ImportOk, NewWorkOk;
  }

  lemma BlocksMove(p: Sys, step: Step, s: Sys, findingId: Id, itemId: Id)
    requires Moves(p, step, s) && ItemsKeyed(p.view.work.items)
    ensures Blocks(p.view.work, findingId, itemId) ==> (Blocks(s.view.work, findingId, itemId) <==> !Releases(step.body, findingId, itemId))
    ensures RecordsSevere(step.body, findingId, itemId) ==> Blocks(s.view.work, findingId, itemId)
    ensures step.body.WorkItemCompleted? && step.streamId == itemId ==> !Blocks(p.view.work, findingId, itemId)
  {
    hide Moves, AdmitsWork, ApplyWork, ItemsKeyed, Blocks;
    WorkMove(p, step, s);
    if InArea(step, WorkArea) {
      if Blocks(p.view.work, findingId, itemId) {
        if step.body.FindingRecorded? || step.body.RiskAccepted? {
          FindingApplied(p.view, step, EventOf(p.view, step), s.view.work, findingId, itemId);
        } else {
          OtherApplied(p.view, step, EventOf(p.view, step), s.view.work, findingId, itemId);
        }
      }
      RecordedApplied(p.view, step, EventOf(p.view, step), s.view.work, findingId, itemId);
    }
  }

  /** What the `n`-th event does to a blocking finding. */
  lemma BlocksNext(s: Sys, n: nat, findingId: Id, itemId: Id)
    requires Reachable(s) && n < |s.log|
    ensures Blocks(At(s, n).view.work, findingId, itemId) ==>
              (Blocks(At(s, n + 1).view.work, findingId, itemId) <==> !Releases(s.log[n].event.body, findingId, itemId))
              && !Completes(s.log[n], itemId)
    ensures RecordsSevere(s.log[n].event.body, findingId, itemId) ==> Blocks(At(s, n + 1).view.work, findingId, itemId)
  {
    hide Reachable, At, Moves, Blocks, Releases, RecordsSevere, NodesKeyed, ItemsKeyed, EdgesKnown, FindingsKnown, AgentsConsistent, RoutesKeyed;
    var step := EventAdmitted(s, n);
    PrefixReachable(s, n);
    KnownReferences(At(s, n));
    BlocksMove(At(s, n), step, At(s, n + 1), findingId, itemId);
  }

  ghost predicate BlocksThroughout(s: Sys, i: nat, j: nat, findingId: Id, itemId: Id)
    requires i <= j <= |s.log|
  {
    forall n :: i <= n <= j ==> Blocks(At(s, n).view.work, findingId, itemId)
  }

  /** A severe finding blocks its item from its recording on, and over a stretch of a run exactly when in it the item is
      not created anew, the risk is not accepted, and the finding is not recorded anew as advisory or on another item.
      While it blocks, the item is not completed. */
  lemma {:induction false} BlocksThroughoutIff(s: Sys, i: nat, j: nat, findingId: Id, itemId: Id)
    requires Reachable(s) && i <= j <= |s.log|
    requires Blocks(At(s, i).view.work, findingId, itemId) || (i > 0 && RecordsSevere(s.log[i - 1].event.body, findingId, itemId))
    ensures BlocksThroughout(s, i, j, findingId, itemId) <==> forall n :: i <= n < j ==> !Releases(s.log[n].event.body, findingId, itemId)
    ensures BlocksThroughout(s, i, j, findingId, itemId) ==> forall n :: i <= n < j ==> !Completes(s.log[n], itemId)
    decreases j - i
  {
    hide Reachable, At, Blocks, Releases, RecordsSevere, Completes;
    if i > 0 {
      BlocksNext(s, i - 1, findingId, itemId);
    }
    if i < j {
      BlocksThroughoutIff(s, i, j - 1, findingId, itemId);
      if BlocksThroughout(s, i, j - 1, findingId, itemId) {
        BlocksNext(s, j - 1, findingId, itemId);
      }
    }
  }

  // ---- a finding that moved to another item

  /** The finding is among the blockers of this item, but it is now recorded on another one. */
  ghost predicate Stranded(w: WorkView, findingId: Id, itemId: Id) {
    && findingId in w.findings && w.findings[findingId].workItemId != itemId
    && itemId in w.items && findingId in w.items[itemId].blockers
  }

  /** The event creates the item anew, or records the finding on it again. */
  predicate Recovers(b: EventBody, findingId: Id, itemId: Id) {
    || (b.WorkItemCreated? && b.workItem.workItemId == itemId)
    || (b.FindingRecorded? && b.finding.findingId == findingId && b.finding.workItemId == itemId)
  }

  /** The event records the severe finding on another item. */
  predicate MovesAway(b: EventBody, findingId: Id, itemId: Id) {
    b.FindingRecorded? && b.finding.findingId == findingId && b.finding.workItemId != itemId
  }

  lemma StrandedFinding(v: View, step: Step, e: Event, work: WorkView, findingId: Id, itemId: Id)
    requires AdmitsWork(v, step) && e.body == step.body && e.streamId == step.streamId && ApplyWork(v.work, e) == Ok(work)
    requires ItemsKeyed(v.work.items) && Stranded(v.work, findingId, itemId) && (step.body.FindingRecorded? || step.body.RiskAccepted?)
    ensures Stranded(work, findingId, itemId) <==> !Recovers(step.body, findingId, itemId)
  {
    hide Graph.Reaches, Graph.Dependencies, DependenciesCompleted, NodesById, WorkItemsById, Without, ResumeOk, GatesSatisfied, ParentEdges, ValidNode,
      ImportOk, WorkNodesKnown, NewWorkOk;
    if step.body.RiskAccepted? {
      WithoutKeeps(v.work.items[itemId].blockers, step.body.findingId, findingId);
    }
  }

  lemma StrandedApplied(v: View, step: Step, e: Event, work: WorkView, findingId: Id, itemId: Id)
    requires AdmitsWork(v, step) && e.body == step.body && e.streamId == step.streamId && ApplyWork(v.work, e) == Ok(work)
    requires ItemsKeyed(v.work.items) && Stranded(v.work, findingId, itemId)
    ensures Stranded(work, findingId, itemId) <==> !Recovers(step.body, findingId, itemId)
  {
    if step.body.FindingRecorded? || step.body.RiskAccepted? {
      hide ApplyWork, AdmitsWork, Stranded, Recovers;
      StrandedFinding(v, step, e, work, findingId, itemId);
    } else {
      hide Graph.Reaches, Graph.Dependencies, DependenciesCompleted, NodesById, WorkItemsById, Without, ResumeOk, GatesSatisfied, ParentEdges, ValidNode,
        ImportOk, WorkNodesKnown;
      if step.body.WorkGraphImported? {
        ImportKeepsItem(v, step.body.graph, itemId);
      }
    }
  }

  lemma MovedApplied(v: View, step: Step, e: Event, work: WorkView, findingId: Id, itemId: Id)
    requires AdmitsWork(v, step) && e.body == step.body && e.streamId == step.streamId && ApplyWork(v.work, e) == Ok(work)
    requires ItemsKeyed(v.work.items)
    ensures Blocks(v.work, findingId, itemId) && MovesAway(step.body, findingId, itemId) ==> Stranded(work, findingId, itemId)
    ensures step.body.WorkItemCompleted? && step.streamId == itemId ==> !Stranded(v.work, findingId, itemId)
  {
    hide Graph.Reaches, Graph.Dependencies, DependenciesCompleted, NodesById, WorkItemsById, Without, ResumeOk, GatesSatisfied, ParentEdges, ValidNode,
      ImportOk, NewWorkOk;
  }

  lemma StrandedNext(s: Sys, n: nat, findingId: Id, itemId: Id)
    requires Reachable(s) && n < |s.log|
    ensures Stranded(At(s, n).view.work, findingId, itemId) ==>
              (Stranded(At(s, n + 1).view.work, findingId, itemId) <==> !Recovers(s.log[n].event.body, findingId, itemId))
              && !Completes(s.log[n], itemId)
    ensures Blocks(At(s, n).view.work, findingId, itemId) && MovesAway(s.log[n].event.body, findingId, itemId)
            ==> Stranded(At(s, n + 1).view.work, findingId, itemId)
  {
    hide Reachable, At, Moves, Blocks, Stranded, Recovers, MovesAway, NodesKeyed, ItemsKeyed, EdgesKnown, FindingsKnown, AgentsConsistent, RoutesKeyed,
      AdmitsWork, ApplyWork;
    var p, t := At(s, n), At(s, n + 1);
    var step := EventAdmitted(s, n);
    PrefixReachable(s, n);
    KnownReferences(p);
    WorkMove(p, step, t);
    StoredBody(p, step);
    if InArea(step, WorkArea) {
      if Stranded(p.view.work, findingId, itemId) {
        StrandedApplied(p.view, step, EventOf(p.view, step), t.view.work, findingId, itemId);
      }
      MovedApplied(p.view, step, EventOf(p.view, step), t.view.work, findingId, itemId);
    } else {
      OtherArea(step, findingId, itemId);
    }
  }

  lemma StoredBody(p: Sys, step: Step)
    ensures StoredFor(p, step).event.body == step.body && StoredFor(p, step).event.streamId == step.streamId
  {
  }

  lemma OtherArea(step: Step, findingId: Id, itemId: Id)
    requires !InArea(step, WorkArea)
    ensures !Recovers(step.body, findingId, itemId) && !MovesAway(step.body, findingId, itemId) && !step.body.WorkItemCompleted?
  {
  }

  ghost predicate StrandedThroughout(s: Sys, i: nat, j: nat, findingId: Id, itemId: Id)
    requires i <= j <= |s.log|
  {
    forall n :: i <= n <= j ==> Stranded(At(s, n).view.work, findingId, itemId)
  }

  /** A blocking finding that is recorded anew on another item stays among the blockers of the first, which is not
      completed, over a stretch of a run exactly when in it the item is not created anew and the finding not recorded on
      it again. Accepting its risk does not help. */
  lemma {:induction false} StrandedThroughoutIff(s: Sys, i: nat, j: nat, findingId: Id, itemId: Id)
    requires Reachable(s) && 0 < i <= j <= |s.log|
    requires Blocks(At(s, i - 1).view.work, findingId, itemId) && MovesAway(s.log[i - 1].event.body, findingId, itemId)
    ensures StrandedThroughout(s, i, j, findingId, itemId) <==> forall n :: i <= n < j ==> !Recovers(s.log[n].event.body, findingId, itemId)
    ensures StrandedThroughout(s, i, j, findingId, itemId) ==> forall n :: i <= n < j ==> !Completes(s.log[n], itemId)
    decreases j - i
  {
    hide Reachable, At, Blocks, Stranded, Recovers, MovesAway, Completes;
    StrandedNext(s, i - 1, findingId, itemId);
    if i < j {
      StrandedThroughoutIff(s, i, j - 1, findingId, itemId);
      if StrandedThroughout(s, i, j - 1, findingId, itemId) {
        StrandedNext(s, j - 1, findingId, itemId);
      }
    }
  }

  // ---- a run in which it happens

  function SevereOn(itemId: Id): Step {
    Step(itemId, FindingRecorded(Finding("f", itemId, "n", Severe, false, "")), System, Some("s3*"), if itemId == "a" then "7" else "8", 0, 0, NoContext)
  }

  /** One more finding on an activated plane with the two items. */
  lemma FindingScene(steps: seq<Step>, s: Sys, keys: set<string>, itemId: Id) returns (t: Sys)
    requires Built(steps, s, keys) && itemId in {"a", "b"} && SevereOn(itemId).key !in keys
    requires s.view.work.items.Keys == {"a", "b"} && s.view.work.nodes.Keys == {"n"}
    ensures Built(steps + [SevereOn(itemId)], t, keys + {SevereOn(itemId).key}) && Moves(s, SevereOn(itemId), t)
    ensures t.view.work.items.Keys == {"a", "b"} && t.view.work.nodes.Keys == {"n"}
  {
    hide Moves, Run, KeysOf, Built, Admits, AdmitsWork, ApplyWork, ItemsKeyed;
    ServicesOf(steps, s, keys);
    assert itemId != STREAM by { assert |STREAM| != 1; }
    BuiltItems(steps, s, keys);
    SevereAdmitted(s.view, itemId);
    t := Extend(steps, s, keys, SevereOn(itemId));
    WorkMove(s, SevereOn(itemId), t);
    SevereApplied(s.view.work, EventOf(s.view, SevereOn(itemId)), t.view.work);
  }

  lemma SevereAdmitted(v: View, itemId: Id)
    requires itemId in v.work.items && "n" in v.work.nodes
    ensures Admits(v, SevereOn(itemId))
  {
    hide AdmitsAgents, AdmitsEffects, AdmitsRoutes, AdmitsActivation;
  }

  lemma SevereApplied(w: WorkView, e: Event, next: WorkView)
    requires e.body.FindingRecorded? && ApplyWork(w, e) == Ok(next) && ItemsKeyed(w.items)
    ensures next.items.Keys == w.items.Keys && next.nodes == w.nodes
  {
  }

  lemma BuiltItems(steps: seq<Step>, s: Sys, keys: set<string>)
    requires Built(steps, s, keys)
    ensures Reachable(s) && ItemsKeyed(s.view.work.items)
  {
    hide Run, Reachable, NodesKeyed, ItemsKeyed, EdgesKnown, FindingsKnown, AgentsConsistent, RoutesKeyed;
    BuiltReachable(steps, s, keys);
    KnownReferences(s);
  }

  /** A finding is recorded on item a and then on item b: it blocks a first, and is stranded there after. */
  lemma StrandedReached() returns (s: Sys, i: nat)
    ensures Reachable(s) && 0 < i == |s.log|
    ensures Blocks(At(s, i - 1).view.work, "f", "a") && MovesAway(s.log[i - 1].event.body, "f", "a")
  {
    hide Moves, Run, KeysOf, Built, Reachable, Blocks, RecordsSevere, At;
    var steps, p := Activated0();
    var keys := {"1", "2", "3", "4", "5", "6"};
    assert "7" !in keys && "8" !in keys + {"7"};
    var q := FindingScene(steps, p, keys, "a");
    s := FindingScene(steps + [SevereOn("a")], q, keys + {"7"}, "b");
    i := |s.log|;
    BuiltItems(steps, p, keys);
    BuiltItems(steps + [SevereOn("a")], q, keys + {"7"});
    BuiltItems(steps + [SevereOn("a")] + [SevereOn("b")], s, keys + {"7"} + {"8"});
    BlocksMove(p, SevereOn("a"), q, "f", "a");
    SevereIs("a");
    LogGrows(q, SevereOn("b"), s);
    SameServicesBuilt(steps + [SevereOn("a")], q, keys + {"7"}, steps + [SevereOn("a")] + [SevereOn("b")], s, keys + {"7"} + {"8"});
    SameLogSameState(s, q, i - 1);
    assert "b" != "a" by { assert "b"[0] != "a"[0]; }
  }

  lemma SevereIs(itemId: Id)
    ensures RecordsSevere(SevereOn(itemId).body, "f", itemId)
  {
  }

  lemma SameServicesBuilt(steps: seq<Step>, s: Sys, keys: set<string>, more: seq<Step>, t: Sys, moreKeys: set<string>)
    requires Built(steps, s, keys) && Built(more, t, moreKeys)
    ensures s.view.dataSpaceId == t.view.dataSpaceId && s.view.activation.streamId == t.view.activation.streamId
  {
    hide Run, KeysOf;
  }
}
