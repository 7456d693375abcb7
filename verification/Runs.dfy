/** Every reachable ledger is a chain of accepted commands: each prefix is the ledger of a
    reachable state, and each event was admitted in the state rebuilt from the events before
    it. Properties of whole runs are proved by walking this chain. */
module Runs {
  import opened Models
  import opened Events
  import opened Ledger
  import opened Views
  import opened Commands
  import opened Consistency

  /** An accepted command: its checks held before, its event is the new last one, and the
      handler of that event leads to the state after. */
  ghost predicate Moves(p: Sys, step: Step, s: Sys) {
    && Admits(p.view, step)
    && s.log == p.log + [StoredFor(p, step)]
    && Handle(p.view, StoredFor(p, step)) == Ok(s.view)
  }

  /** An accepted command moves; a rejected one changes nothing. */
  lemma ExecMoves(p: Sys, step: Step)
    requires Inv(p)
    ensures if Accepted(p, step) then Moves(p, step, Exec(p, step)) else Exec(p, step) == p
  {
    hide Admits, Handle, Consistent, WellFormed, InSync, Replay, OutcomeOf, KernelAuthored, ActivationAuthored;
    if Accepted(p, step) {
      ConsistentStep(p, step);
    }
  }

  /** The last command that changed anything. */
  lemma {:induction false} LastMove(dataSpaceId: Id, activationStream: Id, steps: seq<Step>) returns (p: Sys, step: Step)
    requires Run(Start(dataSpaceId, activationStream), steps).log != []
    ensures Reachable(p) && Moves(p, step, Run(Start(dataSpaceId, activationStream), steps))
    ensures p.view.dataSpaceId == dataSpaceId && p.view.activation.streamId == activationStream
    decreases |steps|
  {
    hide Moves, Exec, Accepted, Inv, Reachable;
    var front := steps[..|steps| - 1];
    InvRun(dataSpaceId, activationStream, front);
    RunReachable(dataSpaceId, activationStream, front);
    p, step := Run(Start(dataSpaceId, activationStream), front), steps[|steps| - 1];
    ExecMoves(p, step);
    if !Accepted(p, step) {
      p, step := LastMove(dataSpaceId, activationStream, front);
    }
  }

  /** A reachable state with a non-empty ledger was reached by one accepted command from a reachable state. */
  lemma Before(s: Sys) returns (p: Sys, step: Step)
    requires Reachable(s) && s.log != []
    ensures Reachable(p) && Moves(p, step, s)
    ensures p.view.dataSpaceId == s.view.dataSpaceId && p.view.activation.streamId == s.view.activation.streamId
    ensures p.log == s.log[..|s.log| - 1] && s.log[|s.log| - 1] == StoredFor(p, step)
  {
    hide Handle, Admits, Exec;
    var steps :| Run(Start(s.view.dataSpaceId, s.view.activation.streamId), steps) == s;
    p, step := LastMove(s.view.dataSpaceId, s.view.activation.streamId, steps);
  }

  /** A reachable state with an empty ledger is the initial one. */
  lemma AtStart(s: Sys)
    requires Reachable(s) && s.log == []
    ensures s == Start(s.view.dataSpaceId, s.view.activation.streamId)
  {
    hide Reachable, WellFormed, InSync, Consistent, KernelAuthored, ActivationAuthored;
    ReachableInv(s);
  }

  /** The state that the first `i` events of the ledger lead to. */
  ghost function At(s: Sys, i: nat): Sys
    requires i <= |s.log|
  {
    match Replay(s.view.dataSpaceId, s.view.activation.streamId, s.log[..i])
    case Ok(v) => Sys(v, s.log[..i])
    case Err(_) => Start(s.view.dataSpaceId, s.view.activation.streamId)
  }

  lemma AtEnd(s: Sys)
    requires Reachable(s)
    ensures At(s, |s.log|) == s
  {
    hide Reachable, WellFormed, InSync, Consistent, KernelAuthored, ActivationAuthored, Replay;
    ReachableInv(s);
    assert s.log[..|s.log|] == s.log;
  }

  /** Every prefix of a reachable ledger is itself the ledger of a reachable state. */
  lemma {:induction false} PrefixReachable(s: Sys, i: nat)
    requires Reachable(s) && i <= |s.log|
    ensures Reachable(At(s, i)) && At(s, i).log == s.log[..i]
    ensures At(s, i).view.dataSpaceId == s.view.dataSpaceId && At(s, i).view.activation.streamId == s.view.activation.streamId
    decreases |s.log|
  {
    hide Reachable, Replay, Moves;
    if i == |s.log| {
      AtEnd(s);
    } else {
      var p, _ := Before(s);
      PrefixReachable(p, i);
      assert p.log[..i] == s.log[..i];
    }
  }

  /** Each event of a reachable ledger was admitted in the state of the events before it and leads to the
      state of the events up to it. */
  lemma EventAdmitted(s: Sys, i: nat) returns (step: Step)
    requires Reachable(s) && i < |s.log|
    ensures Moves(At(s, i), step, At(s, i + 1)) && s.log[i] == StoredFor(At(s, i), step)
  {
    hide Reachable, Replay, Moves, At;
    PrefixReachable(s, i + 1);
    var p: Sys;
    p, step := Before(At(s, i + 1));
    assert p.log == s.log[..i];
    assert p == At(s, i) by { SameLogSameState(s, p, i); }
  }

  lemma SameLogSameState(s: Sys, p: Sys, i: nat)
    requires Reachable(p) && i <= |s.log| && p.log == s.log[..i]
    requires p.view.dataSpaceId == s.view.dataSpaceId && p.view.activation.streamId == s.view.activation.streamId
    ensures At(s, i) == p
  {
    hide Reachable, Replay;
    AtEnd(p);
    assert p.log[..|p.log|] == s.log[..i];
    assert At(p, |p.log|) == At(s, i);
  }

  // ---- what a move does to each view

  /** The ledger grows by the event of the command. */
  lemma LogGrows(p: Sys, step: Step, s: Sys)
    requires Moves(p, step, s)
    ensures s.log == p.log + [StoredFor(p, step)]
    ensures StoredFor(p, step).event.body == step.body && StoredFor(p, step).event.streamId == step.streamId
    ensures forall d :: d in s.log <==> d in p.log || d == StoredFor(p, step)
  {
    hide Admits, Handle;
  }

  predicate InArea(step: Step, area: Area) {
    !step.body.ActivationEvent? && AreaOf(step.body) == area
  }

  lemma WorkMove(p: Sys, step: Step, s: Sys)
    requires Moves(p, step, s)
    ensures InArea(step, WorkArea) ==> AdmitsWork(p.view, step) && ApplyWork(p.view.work, EventOf(p.view, step)) == Ok(s.view.work)
    ensures !InArea(step, WorkArea) ==> s.view.work == p.view.work
  {
    hide AdmitsWork, AdmitsAgents, AdmitsEffects, AdmitsRoutes, AdmitsActivation,
      ApplyWork, ApplyAgents, ApplyEffects, ApplyRoutes, ApplyActivation, PauseWorkExecutions, RevokeLeases;
  }

  lemma AgentMove(p: Sys, step: Step, s: Sys)
    requires Moves(p, step, s)
    ensures InArea(step, AgentArea) ==> AdmitsAgents(p.view, step) && ApplyAgents(p.view.work, p.view.agents, EventOf(p.view, step)) == Ok(s.view.agents)
    ensures step.body.HumanIntervention? ==> s.view.agents == p.view.agents.(executions := PauseWorkExecutions(p.view.agents.executions, step.streamId))
    ensures !InArea(step, AgentArea) && !step.body.HumanIntervention? ==> s.view.agents == p.view.agents
  {
    hide AdmitsWork, AdmitsAgents, AdmitsEffects, AdmitsRoutes, AdmitsActivation,
      ApplyWork, ApplyAgents, ApplyEffects, ApplyRoutes, ApplyActivation, PauseWorkExecutions, RevokeLeases;
  }

  lemma EffectMove(p: Sys, step: Step, s: Sys)
    requires Moves(p, step, s)
    ensures InArea(step, EffectArea) ==> AdmitsEffects(p.view, step) && ApplyEffects(p.view.effects, EventOf(p.view, step)) == Ok(s.view.effects)
    ensures step.body.HumanIntervention? ==> s.view.effects == p.view.effects.(leases := RevokeLeases(p.view.effects.leases, step.streamId))
    ensures !InArea(step, EffectArea) && !step.body.HumanIntervention? ==> s.view.effects == p.view.effects
  {
    hide AdmitsWork, AdmitsAgents, AdmitsEffects, AdmitsRoutes, AdmitsActivation,
      ApplyWork, ApplyAgents, ApplyEffects, ApplyRoutes, ApplyActivation, PauseWorkExecutions, RevokeLeases;
  }

  lemma RouteMove(p: Sys, step: Step, s: Sys)
    requires Moves(p, step, s)
    ensures InArea(step, RouteArea) ==> AdmitsRoutes(p.view, step) && ApplyRoutes(p.view.routes, EventOf(p.view, step)) == Ok(s.view.routes)
    ensures !InArea(step, RouteArea) ==> s.view.routes == p.view.routes
  {
    hide AdmitsWork, AdmitsAgents, AdmitsEffects, AdmitsRoutes, AdmitsActivation,
      ApplyWork, ApplyAgents, ApplyEffects, ApplyRoutes, ApplyActivation, PauseWorkExecutions, RevokeLeases;
  }

  lemma ActivationMove(p: Sys, step: Step, s: Sys)
    requires Moves(p, step, s)
    ensures step.body.ActivationEvent? ==>
              AdmitsActivation(p.view.dataSpaceId, p.view.activation, step)
              && ApplyActivation(p.view.activation, StoredFor(p, step)) == Ok(s.view.activation)
    ensures step.body.WorkGraphImported? ==>
              s.view.activation == p.view.activation.(workGraphSnapshotId := Some(step.body.graph.snapshotId))
    ensures !step.body.ActivationEvent? && !step.body.WorkGraphImported? ==> s.view.activation == p.view.activation
  {
    hide AdmitsWork, AdmitsAgents, AdmitsEffects, AdmitsRoutes, AdmitsActivation,
      ApplyWork, ApplyAgents, ApplyEffects, ApplyRoutes, ApplyActivation, PauseWorkExecutions, RevokeLeases;
  }
}
