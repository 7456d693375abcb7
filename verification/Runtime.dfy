/** Process restart: a new Kernel is rebuilt from the ledger alone, and a reorientation attempt
    that the old process was running is recorded as interrupted. */
module Runtime {
  import opened Models
  import opened Events
  import opened Ledger
  import opened Views
  import opened Commands
  import opened Consistency
  import opened Activation
  import opened KernelService
  import opened Projection
  import opened Naming
  import opened Identities
  import Text

  /** A command of the activation service moves the whole control plane as specified. */
  lemma ActivationMovesSystem(ok: bool, s: Sys, step: Step, a: ActivationView, log: seq<StoredEvent>)
    requires step.body.ActivationEvent?
    requires Done(ok, s.view.dataSpaceId, s.view.activation, s.log, step, a, log)
    ensures Did(ok, s, step, Sys(s.view.(activation := a), log))
  {
    hide AdmitsActivation, ApplyActivation, OutcomeOf, AdmitsWork, AdmitsAgents, AdmitsEffects, AdmitsRoutes;
  }

  /** In a reachable state the activation service is ready for its next command. */
  lemma ActivationReady(s: Sys)
    requires Reachable(s)
    ensures ActivationConsistent(s.view.activation) && ActivationAuthored(s.view.activation, s.log)
  {
    hide Reachable, WellFormed, InSync, Replay, ActivationConsistent, ActivationAuthored, KernelAuthored;
    ReachableInv(s);
  }

  /** The command that records a lost attempt, under a key derived from the attempt's first version. */
  function InterruptionStep(s: Sys, at: Time): Step
    requires s.view.activation.attempt.startedVersion.Some?
  {
    var key := "reorientation:runtime-restart-interruption:" + Text.Decimal(s.view.activation.attempt.startedVersion.value);
    Change(Caller("system:runtime-bootstrap", key, at, at), s.view.activation.streamId, ReorientationInterrupted, System, NoContext)
  }

  /** How a lost attempt is recorded: by the bootstrap, as the system, under a key of the version at which it started. */
  lemma InterruptionMeans(s: Sys, at: Time)
    requires s.view.activation.attempt.startedVersion.Some?
    ensures var step := InterruptionStep(s, at);
            && step.body == ActivationEvent(ReorientationInterrupted) && step.streamId == s.view.activation.streamId && step.actorType == System
            && step.actorId == Some("system:runtime-bootstrap") && step.recordedAt == at
            && step.key == "reorientation:runtime-restart-interruption:" + Text.Decimal(s.view.activation.attempt.startedVersion.value)
  {
  }

  /** The values of a dictionary, listed. */
  method ListValues<T(!new)>(m: map<Id, T>) returns (listing: seq<T>)
    ensures Lists(listing, m)
  {
    listing := [];
    var rest := m.Keys;
    while rest != {}
      invariant rest <= m.Keys
      invariant forall x :: x in listing <==> exists k :: k in m && k !in rest && m[k] == x
      decreases |rest|
    {
      var k :| k in rest;
      listing := listing + [m[k]];
      rest := rest - {k};
    }
  }

  /** A new registry over the rows, restored from what the Kernel recorded. It raises exactly when there are no rows or
      the recorded names are not distinct or have lost their rows. */
  method RestoredRegistry(kernel: Kernel, rows: seq<NameRow>) returns (registry: AgentNameRegistry?)
    requires kernel.Valid()
    ensures registry != null <==> rows != [] && Issued(rows, Recorded(kernel.agents))
    ensures registry != null ==> fresh(registry) && registry.Valid() && registry.rows == rows && registry.Holdings() == Recorded(kernel.agents)
  {
    hide Reachable, Indexed, Issued, RestoreAssignments, RestoreRegistrations, Keyed;
    RecordedKeyed(kernel.State());
    var created := AgentNameRegistry.FromRows(rows);
    if created.Err? {
      return null;
    }
    var assignments := ListValues(kernel.agents.assignments);
    var registrations := ListValues(kernel.agents.registrations);
    RestoreIff(rows, kernel.agents.assignments, kernel.agents.registrations, assignments, registrations);
    var restored := created.value.Restore(assignments);
    if !restored {
      return null;
    }
    restored := created.value.RestoreIdentities(registrations);
    return if restored then created.value else null;
  }

  /** Rebuilds the services over a ledger that some earlier process left in state `s`. Nothing but the
      ledger is read, and the rebuilt state is `s`. In production the name registry is restored from it; when that does
      not raise, a lost attempt is interrupted once. */
  method Bootstrap(dataSpaceId: Id, activationStream: Id, ledger: InMemoryLedger, pageSize: int, at: Time, production: Option<seq<NameRow>>, ghost s: Sys)
    returns (kernel: Kernel, registry: AgentNameRegistry?, raised: bool, interrupted: bool)
    requires ledger.Valid() && ledger.dataSpaceId == dataSpaceId && pageSize > 0
    requires Reachable(s) && s.log == ledger.events
    requires s.view.dataSpaceId == dataSpaceId && s.view.activation.streamId == activationStream
    modifies ledger
    ensures kernel.Valid()
    ensures raised <==> production.Some? && !(production.value != [] && Issued(production.value, Recorded(s.view.agents)))
    ensures registry != null <==> production.Some? && !raised
    ensures registry != null ==> registry.Valid() && registry.rows == production.value && registry.Holdings() == Recorded(s.view.agents)
    ensures !raised && s.view.activation.attempt.inProgress ==>
              s.view.activation.attempt.startedVersion.Some? && Did(interrupted, s, InterruptionStep(s, at), kernel.State())
    ensures raised || !s.view.activation.attempt.inProgress ==> !interrupted && kernel.State() == s
  {
    hide Reachable, Indexed, ReplayFrom, Done, Did, ActivationConsistent, ActivationAuthored, Issued;
    var activation := new ActivationService(dataSpaceId, activationStream, ledger);
    kernel := new Kernel(dataSpaceId, ledger, activation);
    var projection := new OperationalProjection(kernel);
    RebuildsTo(s);
    var r := projection.Rebuild(pageSize);
    assert kernel.State() == s;
    registry, raised, interrupted := null, false, false;
    if production.Some? {
      registry := RestoredRegistry(kernel, production.value);
      if registry == null {
        raised := true;
        return;
      }
    }
    ActivationReady(s);
    if activation.attempt.inProgress {
      AttemptHasStart(s.view.activation);
      var key := "reorientation:runtime-restart-interruption:" + Text.Decimal(activation.attempt.startedVersion.value);
      interrupted := activation.InterruptAttempt(Caller("system:runtime-bootstrap", key, at, at));
      ActivationMovesSystem(interrupted, s, InterruptionStep(s, at), activation.View(), ledger.events);
      DoneStaysReachable(interrupted, s, InterruptionStep(s, at), kernel.State());
    }
  }

  lemma RebuildsTo(s: Sys)
    requires Reachable(s)
    ensures ReplayFrom(NewView(s.view.dataSpaceId, s.view.activation.streamId), 0, s.log) == Ok(s.view)
  {
    hide Reachable, WellFormed, InSync, Consistent, ReplayFrom, ActivationAuthored, KernelAuthored;
    ReachableInv(s);
  }

  lemma AttemptHasStart(a: ActivationView)
    requires ActivationConsistent(a) && a.attempt.inProgress
    ensures a.attempt.startedVersion.Some?
  {
  }
}
