/** Route publication over whole runs: one published snapshot per route key, and approvals
    that were really recorded, in order, before publication. */
module Routes {
  import opened Models
  import opened Events
  import opened Ledger
  import opened Views
  import opened Commands
  import opened Consistency
  import opened Runs

  // ---- at most one published snapshot per key

  predicate OnePublished(routes: map<Id, RouteSnapshot>) {
    forall j, k :: j in routes && k in routes && routes[j].state.Published? && routes[k].state.Published? && j != k ==>
      routes[j].routeKey != routes[k].routeKey
  }

  lemma OnePublishedStep(p: Sys, step: Step, s: Sys)
    requires Moves(p, step, s) && OnePublished(p.view.routes) && RoutesKeyed(p.view.routes)
    ensures OnePublished(s.view.routes)
  {
    hide Moves;
    RouteMove(p, step, s);
  }

  /** In every reachable state at most one snapshot per route key is published. */
  lemma {:induction false} AtMostOnePublished(s: Sys)
    requires Reachable(s)
    ensures OnePublished(s.view.routes)
    decreases |s.log|
  {
    hide Reachable, Moves, OnePublished, WorkConsistent, AgentsConsistent;
    if s.log == [] {
      AtStart(s);
      assert OnePublished(map[]) by { NonePublished(); }
    } else {
      var p, step := Before(s);
      AtMostOnePublished(p);
      KnownReferences(p);
      OnePublishedStep(p, step, s);
    }
  }

  lemma NonePublished()
    ensures OnePublished(map[])
  {
  }

  /** A snapshot that replaces a published one cannot itself be published: it is owner-approved. */
  lemma ReplacementIsOwnerApproved(s: Sys, retired: Id, replacement: Id)
    requires Reachable(s) && retired in s.view.routes && s.view.routes[retired].state.Published?
    requires ReplacementOk(s.view.routes, s.view.routes[retired], replacement)
    ensures s.view.routes[replacement].state.OwnerApproved?
  {
    hide Reachable, WorkConsistent, AgentsConsistent;
    AtMostOnePublished(s);
    KnownReferences(s);
  }

  // ---- the dispatcher's published routes

  /** The published snapshots, as the dispatcher collects them. */
  function PublishedSnapshots(routes: map<Id, RouteSnapshot>): set<RouteSnapshot> {
    set k | k in routes && routes[k].state.Published? :: routes[k]
  }

  /** The loop that indexes the published snapshots by key, in any order, and raises when a key comes twice. */
  method IndexPublished(published: seq<RouteSnapshot>) returns (r: Result<map<string, RouteSnapshot>>)
    ensures r.Ok? <==> forall i, j :: 0 <= i < j < |published| ==> published[i].routeKey != published[j].routeKey
    ensures r.Ok? ==> forall i :: 0 <= i < |published| ==> published[i].routeKey in r.value && r.value[published[i].routeKey] == published[i]
    ensures r.Ok? ==> forall k :: k in r.value ==> r.value[k] in published && r.value[k].routeKey == k
  {
    var index: map<string, RouteSnapshot> := map[];
    for n := 0 to |published|
      invariant forall i, j :: 0 <= i < j < n ==> published[i].routeKey != published[j].routeKey
      invariant forall i :: 0 <= i < n ==> published[i].routeKey in index && index[published[i].routeKey] == published[i]
      invariant forall k :: k in index ==> exists i :: 0 <= i < n && index[k] == published[i] && published[i].routeKey == k
    {
      if published[n].routeKey in index {
        return Err(InvariantViolation);
      }
      index := index[published[n].routeKey := published[n]];
    }
    return Ok(index);
  }

  /** The duplicate-route error never fires, whatever order the snapshots are listed in. */
  lemma NoDuplicateRoute(s: Sys, published: seq<RouteSnapshot>, i: nat, j: nat)
    requires Reachable(s) && i < j < |published|
    requires forall r :: r in published <==> r in PublishedSnapshots(s.view.routes)
    requires forall a, b :: 0 <= a < b < |published| ==> published[a] != published[b]
    ensures published[i].routeKey != published[j].routeKey
  {
    hide Reachable, WorkConsistent, AgentsConsistent;
    AtMostOnePublished(s);
    KnownReferences(s);
    assert published[i] in published && published[j] in published;
  }

  // ---- approvals

  datatype RouteMark = Registered | S3Approved | OwnerOk | Public | Gone

  function MarkOf(b: EventBody): RouteMark
    requires !b.ActivationEvent? && AreaOf(b).RouteArea?
  {
    match b
    case RouteRegistered(_) => Registered
    case RouteSnapshotApproved(S3StarApproval, _) => S3Approved
    case RouteSnapshotApproved(_, _) => OwnerOk
    case RoutePublished => Public
    case _ => Gone
  }

  function OnRoute(id: Id): StoredEvent -> bool {
    (d: StoredEvent) => d.event.streamId == id && !d.event.body.ActivationEvent? && AreaOf(d.event.body).RouteArea?
  }

  /** The route events of one snapshot, oldest first. */
  function RouteEvents(log: seq<StoredEvent>, id: Id): seq<StoredEvent> {
    Filter(log, OnRoute(id))
  }

  /** The marks a snapshot must have collected since its latest registration. */
  function MarksFor(state: RouteState): seq<RouteMark> {
    match state
    case Draft => [Registered]
    case S3StarApproved => [Registered, S3Approved]
    case OwnerApproved => [Registered, S3Approved, OwnerOk]
    case Published => [Registered, S3Approved, OwnerOk, Public]
    case Retired => [Registered, S3Approved, OwnerOk, Public, Gone]
  }

  /** The latest events of the snapshot are exactly those its state calls for, and the approval
      references point at the recorded approvals. */
  ghost predicate Trail(trail: seq<StoredEvent>, r: RouteSnapshot) {
    var marks := MarksFor(r.state);
    var n := |trail| - |marks|;
    && n >= 0
    && (forall i :: n <= i < |trail| ==>
          !trail[i].event.body.ActivationEvent? && AreaOf(trail[i].event.body).RouteArea? && MarkOf(trail[i].event.body) == marks[i - n])
    && r.s3StarApprovalEvent == (if |marks| > 1 then Some(trail[n + 1].event.eventId) else None)
    && r.ownerApprovalEvent == (if |marks| > 2 then Some(trail[n + 2].event.eventId) else None)
  }

  ghost predicate Trails(s: Sys) {
    forall k :: k in s.view.routes ==> Trail(RouteEvents(s.log, k), s.view.routes[k])
  }

  lemma TrailGrows(trail: seq<StoredEvent>, d: StoredEvent, r: RouteSnapshot, next: RouteSnapshot)
    requires Trail(trail, r) && !d.event.body.ActivationEvent? && AreaOf(d.event.body).RouteArea?
    requires MarksFor(next.state) == MarksFor(r.state) + [MarkOf(d.event.body)]
    requires next.s3StarApprovalEvent == if |MarksFor(r.state)| == 1 then Some(d.event.eventId) else r.s3StarApprovalEvent
    requires next.ownerApprovalEvent == if |MarksFor(r.state)| == 2 then Some(d.event.eventId) else r.ownerApprovalEvent
    ensures Trail(trail + [d], next)
  {
    hide MarksFor;
    var marks, n := MarksFor(r.state), |trail| - |MarksFor(r.state)|;
    assert |marks| >= 1 by { SomeMark(r.state); }
    assert forall i :: n <= i < |trail| ==> (trail + [d])[i] == trail[i];
  }

  lemma SomeMark(state: RouteState)
    ensures |MarksFor(state)| >= 1
  {
  }

  lemma TrailExtends(trail: seq<StoredEvent>, d: StoredEvent, routes: map<Id, RouteSnapshot>, v: View, step: Step)
    requires InArea(step, RouteArea) && d.event.body == step.body && d.event.streamId == step.streamId
    requires AdmitsRoutes(v, step) && ApplyRoutes(v.routes, d.event) == Ok(routes)
    requires step.streamId in v.routes ==> Trail(trail, v.routes[step.streamId])
    ensures step.streamId in routes && Trail(trail + [d], routes[step.streamId])
    ensures forall k :: k in routes && k != step.streamId ==> k in v.routes && routes[k] == v.routes[k]
  {
    if step.body.RouteRegistered? {
      assert (trail + [d])[|trail|] == d;
    } else {
      hide Trail, RetirementOk;
      TrailGrows(trail, d, v.routes[step.streamId], routes[step.streamId]);
    }
  }

  lemma TrailsStep(p: Sys, step: Step, s: Sys)
    requires Moves(p, step, s) && Trails(p)
    ensures Trails(s)
  {
    hide Moves, AdmitsRoutes, ApplyRoutes, Trail, Admits;
    RouteMove(p, step, s);
    var d := StoredFor(p, step);
    LogGrows(p, step, s);
    if InArea(step, RouteArea) {
      TrailExtends(RouteEvents(p.log, step.streamId), d, s.view.routes, p.view, step);
    }
    forall k | k in s.view.routes ensures Trail(RouteEvents(s.log, k), s.view.routes[k]) {
      FilterSnoc(p.log, d, OnRoute(k));
    }
  }

  /** In every reachable state each snapshot's stream ends with its registration, S3* approval, owner approval,
      publication and retirement, in that order and as far as its state says. */
  lemma {:induction false} ApprovalsInOrder(s: Sys)
    requires Reachable(s)
    ensures Trails(s)
    decreases |s.log|
  {
    hide Reachable, Moves, Trail;
    if s.log == [] {
      AtStart(s);
    } else {
      var p, step := Before(s);
      ApprovalsInOrder(p);
      TrailsStep(p, step, s);
    }
  }
}
