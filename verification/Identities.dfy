/** The Kernel and the name registry together: what the Kernel recorded is always part of what the running registry
    issued, so that the registry of the next process can be restored from it. */
module Identities {
  import opened Models
  import opened Events
  import opened Ledger
  import opened Views
  import opened Commands
  import opened Consistency
  import opened Runs
  import opened Naming

  /** The names that the Kernel has recorded. */
  function Recorded(a: AgentView): Names {
    NamesOf(a.assignments, a.registrations)
  }

  predicate RegistrationsKeyed(registrations: map<Id, Registration>) {
    forall k :: k in registrations ==> registrations[k].registrationId == k
  }

  /** What a command does to the recorded names: it adds at most the one name that it records. */
  lemma NamesApplied(v: View, step: Step, e: Event, agents: AgentView)
    requires AdmitsAgents(v, step) && e.body == step.body && e.streamId == step.streamId && ApplyAgents(v.work, v.agents, e) == Ok(agents)
    ensures step.body.AgentNameAssigned? ==>
              agents.assignments == v.agents.assignments[step.body.assignment.assignmentId := step.body.assignment]
              && step.context == IssuedName(Some(step.body.assignment))
    ensures !step.body.AgentNameAssigned? ==> agents.assignments == v.agents.assignments
    ensures step.body.AgentIdentityRegistered? ==>
              agents.registrations == v.agents.registrations[step.body.registration.registrationId := step.body.registration]
              && step.context == IssuedIdentity(Some(step.body.registration))
    ensures !step.body.AgentIdentityRegistered? ==> agents.registrations == v.agents.registrations
  {
    hide ValidAgentMessage, NameRegistered, AssignmentFor;
  }

  lemma NamesMove(p: Sys, step: Step, s: Sys)
    requires Moves(p, step, s)
    ensures var x, y := p.view.agents, s.view.agents;
            && y.assignments == (if step.body.AgentNameAssigned? then x.assignments[step.body.assignment.assignmentId := step.body.assignment] else x.assignments)
            && y.registrations ==
                 (if step.body.AgentIdentityRegistered? then x.registrations[step.body.registration.registrationId := step.body.registration] else x.registrations)
            && (step.body.AgentNameAssigned? ==> step.context == IssuedName(Some(step.body.assignment)))
            && (step.body.AgentIdentityRegistered? ==> step.context == IssuedIdentity(Some(step.body.registration)))
  {
    hide Moves, AdmitsAgents, ApplyAgents;
    AgentMove(p, step, s);
    if InArea(step, AgentArea) {
      NamesApplied(p.view, step, EventOf(p.view, step), s.view.agents);
    }
  }

  lemma {:induction false} RegistrationsStayKeyed(s: Sys)
    requires Reachable(s)
    ensures RegistrationsKeyed(s.view.agents.registrations)
    decreases |s.log|
  {
    hide Reachable, Moves;
    if s.log == [] {
      AtStart(s);
    } else {
      var p, step := Before(s);
      RegistrationsStayKeyed(p);
      NamesMove(p, step, s);
    }
  }

  /** Recorded assignments and registrations are stored under their own identities. */
  lemma RecordedKeyed(s: Sys)
    requires Reachable(s)
    ensures Keyed(Recorded(s.view.agents))
  {
    hide Reachable, NodesKeyed, ItemsKeyed, EdgesKnown, FindingsKnown, RoutesKeyed;
    RegistrationsStayKeyed(s);
    KnownReferences(s);
  }

  // ---- the running process

  /** The control plane, the registry of the running process, and whether restoring a registry ever raised. */
  datatype Plane = Plane(sys: Sys, registry: Names, raised: bool)

  /** Names are issued, commands are performed, and the process is restarted over what the Kernel recorded. */
  datatype PlaneEvent =
    | IssuesName(issued: Assignment) | IssuesIdentity(identity: Registration)
    | Performs(command: Step)
    | RestartsWith(listing: seq<Assignment>, identities: seq<Registration>)

  /** Issued names are free and have a row, a command that records a name is told what the registry holds under its
      identity, and a restart reads the recorded names in some order. */
  ghost predicate CanHappen(rows: seq<NameRow>, x: Plane, e: PlaneEvent) {
    match e
    case IssuesName(a) => a.assignmentId !in x.registry.assignments && a.agentName !in x.registry.used && Resolves(rows, a.scale, a.column, a.baseName)
    case IssuesIdentity(r) =>
      r.registrationId !in x.registry.registrations && r.agentName !in x.registry.used && Resolves(rows, r.scale, r.column, r.baseName)
    case Performs(c) =>
      && (c.body.AgentNameAssigned? ==> c.context == IssuedName(LookUp(x.registry.assignments, c.body.assignment.assignmentId)))
      && (c.body.AgentIdentityRegistered? ==> c.context == IssuedIdentity(LookUp(x.registry.registrations, c.body.registration.registrationId)))
    case RestartsWith(listing, identities) =>
      Lists(listing, x.sys.view.agents.assignments) && Lists(identities, x.sys.view.agents.registrations)
  }

  function LookUp<T>(m: map<Id, T>, id: Id): Option<T> {
    if id in m then Some(m[id]) else None
  }

  ghost function PlaneAfter(rows: seq<NameRow>, x: Plane, e: PlaneEvent): Plane {
    match e
    case IssuesName(a) => x.(registry := AddAssignment(x.registry, a))
    case IssuesIdentity(r) => x.(registry := AddRegistration(x.registry, r))
    case Performs(c) => x.(sys := Exec(x.sys, c))
    case RestartsWith(listing, identities) =>
      var (first, ok) := RestoreAssignments(rows, NO_NAMES, listing);
      var (second, okToo) := RestoreRegistrations(rows, first, identities);
      x.(registry := second, raised := x.raised || !ok || !okToo)
  }

  ghost predicate CanRun(rows: seq<NameRow>, x: Plane, events: seq<PlaneEvent>)
    decreases |events|
  {
    events == [] || (CanRun(rows, x, events[..|events| - 1]) && CanHappen(rows, PlaneRun(rows, x, events[..|events| - 1]), events[|events| - 1]))
  }

  ghost function PlaneRun(rows: seq<NameRow>, x: Plane, events: seq<PlaneEvent>): Plane
    decreases |events|
  {
    if events == [] then x else PlaneAfter(rows, PlaneRun(rows, x, events[..|events| - 1]), events[|events| - 1])
  }

  /** What is recorded was issued by the running registry, names are distinct, and no restore has raised. */
  ghost predicate PlaneSafe(rows: seq<NameRow>, x: Plane) {
    Reachable(x.sys) && Issued(rows, x.registry) && Within(Recorded(x.sys.view.agents), x.registry) && !x.raised
  }

  lemma CommandKeepsNames(rows: seq<NameRow>, x: Plane, command: Step)
    requires PlaneSafe(rows, x) && CanHappen(rows, x, Performs(command))
    ensures PlaneSafe(rows, PlaneAfter(rows, x, Performs(command)))
  {
    hide Reachable, Inv, Exec, Accepted, Moves, Issued, Within, Recorded;
    ReachableInv(x.sys);
    ReachableStep(x.sys, command);
    ExecMoves(x.sys, command);
    if Accepted(x.sys, command) {
      NamesMove(x.sys, command, Exec(x.sys, command));
      NamesWithin(x.sys.view.agents, Exec(x.sys, command).view.agents, command.body, x.registry);
    }
  }

  /** Recording a name that the registry issued keeps the recorded names within it. */
  lemma NamesWithin(a: AgentView, b: AgentView, body: EventBody, registry: Names)
    requires Within(Recorded(a), registry)
    requires b.assignments == if body.AgentNameAssigned? then a.assignments[body.assignment.assignmentId := body.assignment] else a.assignments
    requires b.registrations ==
               if body.AgentIdentityRegistered? then a.registrations[body.registration.registrationId := body.registration] else a.registrations
    requires body.AgentNameAssigned? ==> LookUp(registry.assignments, body.assignment.assignmentId) == Some(body.assignment)
    requires body.AgentIdentityRegistered? ==> LookUp(registry.registrations, body.registration.registrationId) == Some(body.registration)
    ensures Within(Recorded(b), registry)
  {
  }

  /** The recorded names can be restored. */
  lemma RecordedIssued(rows: seq<NameRow>, x: Plane)
    requires PlaneSafe(rows, x)
    ensures Issued(rows, Recorded(x.sys.view.agents))
  {
    hide Reachable, Issued;
    PartIssued(rows, x.registry, x.sys.view.agents.assignments, x.sys.view.agents.registrations);
  }

  /** The registry of the new process holds exactly the recorded names. */
  lemma RestartHolds(rows: seq<NameRow>, x: Plane, listing: seq<Assignment>, identities: seq<Registration>)
    requires PlaneSafe(rows, x) && CanHappen(rows, x, RestartsWith(listing, identities))
    ensures PlaneAfter(rows, x, RestartsWith(listing, identities)) == x.(registry := Recorded(x.sys.view.agents))
  {
    hide Reachable, Issued, RestoreAssignments, RestoreRegistrations, Keyed;
    var a := x.sys.view.agents;
    RecordedIssued(rows, x);
    RecordedKeyed(x.sys);
    RestoreIff(rows, a.assignments, a.registrations, listing, identities);
  }

  lemma PlaneStep(rows: seq<NameRow>, x: Plane, e: PlaneEvent)
    requires PlaneSafe(rows, x) && CanHappen(rows, x, e)
    ensures PlaneSafe(rows, PlaneAfter(rows, x, e))
  {
    hide Reachable, Exec, Resolves, Distinct, UsedAreIssued, AllResolve, RestoreAssignments, RestoreRegistrations;
    match e {
    case IssuesName(a) => AssignmentIssued(rows, x.registry, a);
    case IssuesIdentity(r) => RegistrationIssued(rows, x.registry, r);
    case Performs(command) => CommandKeepsNames(rows, x, command);
    case RestartsWith(listing, identities) => RestartHolds(rows, x, listing, identities); RecordedIssued(rows, x);
    }
  }

  /** Over any run of issued names, commands and restarts with the same rows, restoring the registry from the Kernel's
      recorded names has never raised and would not raise now, and every recorded name is one that the running registry
      issued. */
  lemma {:induction false} RestoringNeverRaises(rows: seq<NameRow>, dataSpaceId: Id, activationStream: Id, events: seq<PlaneEvent>)
    requires CanRun(rows, Plane(Start(dataSpaceId, activationStream), NO_NAMES, false), events)
    ensures PlaneSafe(rows, PlaneRun(rows, Plane(Start(dataSpaceId, activationStream), NO_NAMES, false), events))
    ensures Issued(rows, Recorded(PlaneRun(rows, Plane(Start(dataSpaceId, activationStream), NO_NAMES, false), events).sys.view.agents))
  {
    hide PlaneSafe, CanHappen, PlaneAfter, Issued;
    var start := Plane(Start(dataSpaceId, activationStream), NO_NAMES, false);
    if events == [] {
      EmptyPlane(rows, dataSpaceId, activationStream);
    } else {
      RestoringNeverRaises(rows, dataSpaceId, activationStream, events[..|events| - 1]);
      PlaneStep(rows, PlaneRun(rows, start, events[..|events| - 1]), events[|events| - 1]);
    }
    RecordedIssued(rows, PlaneRun(rows, start, events));
  }

  lemma EmptyPlane(rows: seq<NameRow>, dataSpaceId: Id, activationStream: Id)
    ensures PlaneSafe(rows, Plane(Start(dataSpaceId, activationStream), NO_NAMES, false))
  {
    hide Run;
    assert Run(Start(dataSpaceId, activationStream), []) == Start(dataSpaceId, activationStream) by { hide *; EmptyRun(dataSpaceId, activationStream); }
    NothingIssued(rows);
    RunReachable(dataSpaceId, activationStream, []);
  }

  lemma EmptyRun(dataSpaceId: Id, activationStream: Id)
    ensures Run(Start(dataSpaceId, activationStream), []) == Start(dataSpaceId, activationStream)
  {
  }

  /** In a safe plane every recorded name is in use: the batch of a dispatch meets no recorded name by surprise. */
  lemma RecordedNamesAreUsed(rows: seq<NameRow>, x: Plane)
    requires PlaneSafe(rows, x)
    ensures Recorded(x.sys.view.agents).used <= x.registry.used
  {
    hide Reachable, Distinct, AllResolve, Keyed;
    var a := x.sys.view.agents;
    forall name | name in Recorded(a).used ensures name in x.registry.used {
      if k :| k in a.assignments && a.assignments[k].agentName == name {
        assert x.registry.assignments[k].agentName == name;
      } else {
        var k :| k in a.registrations && a.registrations[k].agentName == name;
        assert x.registry.registrations[k].agentName == name;
      }
    }
  }
}
