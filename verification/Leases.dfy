/** Effect leases over whole runs: distinct effect keys, approvals before activation, how a
    lease may evolve, and what a human intervention may touch. */
module Leases {
  import opened Models
  import opened Events
  import opened Ledger
  import opened Views
  import opened Commands
  import opened Consistency
  import opened Runs
  import opened Acceptance
  import opened Witness

  /** No two leases share an effect key. */
  ghost predicate KeysInjective(leases: map<Id, EffectLease>) {
    forall j, k :: j in leases && k in leases && j != k ==> leases[j].effectKey != leases[k].effectKey
  }

  /** Every lease that was ever activated has an owner approval. */
  ghost predicate ActivatedApproved(e: EffectView) {
    forall k :: k in e.leases && e.leases[k].state in {ActiveLease, UnknownLease, SucceededLease, FailedLease} ==> k in e.approvals
  }

  lemma KeysApplied(v: View, step: Step, e: Event, effects: EffectView)
    requires AdmitsEffects(v, step) && e.body == step.body && e.streamId == step.streamId && ApplyEffects(v.effects, e) == Ok(effects)
    requires LeasesKeyed(v.effects.leases) && KeysInjective(v.effects.leases)
    ensures KeysInjective(effects.leases)
  {
  }

  lemma ApprovalsApplied(v: View, step: Step, e: Event, effects: EffectView)
    requires AdmitsEffects(v, step) && e.body == step.body && e.streamId == step.streamId && ApplyEffects(v.effects, e) == Ok(effects)
    requires ActivatedApproved(v.effects)
    ensures ActivatedApproved(effects)
  {
  }

  lemma RevocationKeepsRules(e: EffectView, workItemId: Id)
    requires KeysInjective(e.leases) && ActivatedApproved(e)
    ensures KeysInjective(RevokeLeases(e.leases, workItemId)) && ActivatedApproved(e.(leases := RevokeLeases(e.leases, workItemId)))
  {
  }

  lemma LeaseRulesMove(p: Sys, step: Step, s: Sys)
    requires Moves(p, step, s)
    requires LeasesKeyed(p.view.effects.leases) && KeysInjective(p.view.effects.leases) && ActivatedApproved(p.view.effects)
    ensures KeysInjective(s.view.effects.leases) && ActivatedApproved(s.view.effects)
  {
    hide Moves, AdmitsEffects, ApplyEffects, KeysInjective, ActivatedApproved, LeasesKeyed, RevokeLeases;
    EffectMove(p, step, s);
    if InArea(step, EffectArea) {
      KeysApplied(p.view, step, EventOf(p.view, step), s.view.effects);
      ApprovalsApplied(p.view, step, EventOf(p.view, step), s.view.effects);
    } else if step.body.HumanIntervention? {
      RevocationKeepsRules(p.view.effects, step.streamId);
    }
  }

  /** In every reachable state effect keys are distinct and activated leases are approved. */
  lemma {:induction false} LeaseRules(s: Sys)
    requires Reachable(s)
    ensures KeysInjective(s.view.effects.leases) && ActivatedApproved(s.view.effects)
    decreases |s.log|
  {
    hide Reachable, Moves, LeasesKeyed;
    if s.log == [] {
      AtStart(s);
    } else {
      hide KeysInjective, ActivatedApproved;
      var p, step := Before(s);
      LeaseRules(p);
      KnownLeases(p);
      LeaseRulesMove(p, step, s);
    }
  }

  lemma KnownLeases(s: Sys)
    requires Reachable(s)
    ensures LeasesKeyed(s.view.effects.leases)
  {
    hide Reachable, WellFormed, InSync, Replay, WorkConsistent, AgentsConsistent, LeasesKeyed, RoutesKeyed, KernelAuthored, ActivationAuthored;
    ReachableInv(s);
  }

  // ---- the life of one lease

  /** Where a lease may be later, as long as its identity is not planned again. */
  predicate LeaseStateFollows(a: LeaseState, b: LeaseState) {
    match a
    case PlannedLease => true
    case ActiveLease => !b.PlannedLease?
    case UnknownLease => b in {UnknownLease, SucceededLease, FailedLease}
    case _ => b == a
  }

  predicate LeaseFollows(a: EffectLease, b: EffectLease) {
    LeaseStateFollows(a.state, b.state) && b == a.(state := b.state)
  }

  /** The event plans the lease, or plans it again. */
  predicate Plans(d: StoredEvent, id: Id) {
    d.event.body.EffectPlanned? && d.event.streamId == id
  }

  predicate Reconciles(d: StoredEvent, id: Id) {
    d.event.body.EffectReconciled? && d.event.streamId == id
  }

  lemma LeaseApplied(v: View, step: Step, d: StoredEvent, effects: EffectView, id: Id)
    requires AdmitsEffects(v, step) && d.event.body == step.body && d.event.streamId == step.streamId
    requires ApplyEffects(v.effects, d.event) == Ok(effects)
    requires id in v.effects.leases
    ensures id in effects.leases
    ensures !Plans(d, id) ==> LeaseFollows(v.effects.leases[id], effects.leases[id])
    ensures !Plans(d, id) && !Reconciles(d, id) && v.effects.leases[id].state.UnknownLease? ==> effects.leases[id].state.UnknownLease?
  {
  }

  lemma LeaseMove(p: Sys, step: Step, s: Sys, id: Id)
    requires Moves(p, step, s) && id in p.view.effects.leases
    ensures id in s.view.effects.leases
    ensures !Plans(StoredFor(p, step), id) ==> LeaseFollows(p.view.effects.leases[id], s.view.effects.leases[id])
    ensures !Plans(StoredFor(p, step), id) && !Reconciles(StoredFor(p, step), id) && p.view.effects.leases[id].state.UnknownLease?
            ==> s.view.effects.leases[id].state.UnknownLease?
  {
    hide Moves, AdmitsEffects, ApplyEffects, Plans, Reconciles;
    EffectMove(p, step, s);
    if InArea(step, EffectArea) {
      LeaseApplied(p.view, step, StoredFor(p, step), s.view.effects, id);
    }
  }

  /** Between any two points of a run in which a lease is not planned again, its terms stay, succeeded, failed
      and revoked are final, and an unknown result is left only through a recorded reconciliation. */
  lemma {:induction false} LeaseLife(s: Sys, i: nat, j: nat, id: Id)
    requires Reachable(s) && i <= j <= |s.log| && id in At(s, i).view.effects.leases
    requires forall n :: i <= n < j ==> !Plans(s.log[n], id)
    ensures id in At(s, j).view.effects.leases
    ensures LeaseFollows(At(s, i).view.effects.leases[id], At(s, j).view.effects.leases[id])
    ensures At(s, i).view.effects.leases[id].state.UnknownLease? && !At(s, j).view.effects.leases[id].state.UnknownLease?
            ==> exists n :: i <= n < j && Reconciles(s.log[n], id)
    decreases j - i
  {
    hide Reachable, At, Moves, Plans, Reconciles;
    if i < j {
      LeaseLife(s, i, j - 1, id);
      var step := EventAdmitted(s, j - 1);
      LeaseMove(At(s, j - 1), step, At(s, j), id);
    }
  }

  // ---- when a result is final

  predicate FinalLease(state: LeaseState) {
    state in {RevokedLease, SucceededLease, FailedLease}
  }

  lemma PlanApplied(v: View, step: Step, d: StoredEvent, effects: EffectView, id: Id)
    requires AdmitsEffects(v, step) && d.event.body == step.body && d.event.streamId == step.streamId
    requires ApplyEffects(v.effects, d.event) == Ok(effects)
    ensures Plans(d, id) ==> id in effects.leases && effects.leases[id].state.PlannedLease?
    ensures Reconciles(d, id) ==> id in effects.leases && FinalLease(effects.leases[id].state)
  {
  }

  lemma PlanMove(p: Sys, step: Step, s: Sys, id: Id)
    requires Moves(p, step, s)
    ensures Plans(StoredFor(p, step), id) ==> id in s.view.effects.leases && s.view.effects.leases[id].state.PlannedLease?
    ensures Reconciles(StoredFor(p, step), id) ==> id in s.view.effects.leases && FinalLease(s.view.effects.leases[id].state)
  {
    hide Moves, AdmitsEffects, ApplyEffects, FinalLease;
    EffectMove(p, step, s);
    if InArea(step, EffectArea) {
      PlanApplied(p.view, step, StoredFor(p, step), s.view.effects, id);
    }
  }

  /** The lease is in this state at every point from `i` to `j`. */
  ghost predicate StaysIn(s: Sys, i: nat, j: nat, id: Id, state: LeaseState)
    requires i <= j <= |s.log|
  {
    forall n :: i <= n <= j ==> id in At(s, n).view.effects.leases && At(s, n).view.effects.leases[id].state == state
  }

  lemma StateAfterPlan(s: Sys, n: nat, id: Id)
    requires Reachable(s) && n < |s.log|
    ensures Plans(s.log[n], id) ==> id in At(s, n + 1).view.effects.leases && At(s, n + 1).view.effects.leases[id].state.PlannedLease?
    ensures Reconciles(s.log[n], id) ==> id in At(s, n + 1).view.effects.leases && FinalLease(At(s, n + 1).view.effects.leases[id].state)
  {
    hide Reachable, At, Moves, Plans, Reconciles, FinalLease;
    var step := EventAdmitted(s, n);
    PlanMove(At(s, n), step, At(s, n + 1), id);
  }

  /** A revoked, succeeded or failed lease stays so over a stretch of a run exactly when it is not planned again in it. */
  lemma FinalStaysIff(s: Sys, i: nat, j: nat, id: Id)
    requires Reachable(s) && i <= j <= |s.log|
    requires id in At(s, i).view.effects.leases && FinalLease(At(s, i).view.effects.leases[id].state)
    ensures (forall n :: i <= n < j ==> !Plans(s.log[n], id)) <==> StaysIn(s, i, j, id, At(s, i).view.effects.leases[id].state)
  {
    hide Reachable, At, Plans;
    if forall n :: i <= n < j ==> !Plans(s.log[n], id) {
      forall n | i <= n <= j
        ensures id in At(s, n).view.effects.leases && At(s, n).view.effects.leases[id].state == At(s, i).view.effects.leases[id].state
      {
        LeaseLife(s, i, n, id);
      }
    } else {
      var n :| i <= n < j && Plans(s.log[n], id);
      StateAfterPlan(s, n, id);
    }
  }

  /** An unknown result stays unknown over a stretch of a run exactly when it is neither reconciled nor planned again in it. */
  lemma UnknownStaysIff(s: Sys, i: nat, j: nat, id: Id)
    requires Reachable(s) && i <= j <= |s.log|
    requires id in At(s, i).view.effects.leases && At(s, i).view.effects.leases[id].state.UnknownLease?
    ensures (forall n :: i <= n < j ==> !Plans(s.log[n], id) && !Reconciles(s.log[n], id)) <==> StaysIn(s, i, j, id, UnknownLease)
  {
    hide Reachable, At, Plans, Reconciles;
    if forall n :: i <= n < j ==> !Plans(s.log[n], id) && !Reconciles(s.log[n], id) {
      forall n | i <= n <= j ensures id in At(s, n).view.effects.leases && At(s, n).view.effects.leases[id].state.UnknownLease? {
        LeaseLife(s, i, n, id);
      }
    } else {
      var n :| i <= n < j && (Plans(s.log[n], id) || Reconciles(s.log[n], id));
      StateAfterPlan(s, n, id);
    }
  }

  /** Every planning of the run was of an identity that was unknown, or whose lease was not final. */
  ghost predicate PlannedFresh(s: Sys) {
    forall n, id :: 0 <= n < |s.log| && Plans(s.log[n], id) && id in At(s, n).view.effects.leases ==>
      !FinalLease(At(s, n).view.effects.leases[id].state)
  }

  /** Final results are final over the whole run. */
  ghost predicate FinalThroughout(s: Sys) {
    forall i, j, id :: 0 <= i <= j <= |s.log| && id in At(s, i).view.effects.leases && FinalLease(At(s, i).view.effects.leases[id].state) ==>
      StaysIn(s, i, j, id, At(s, i).view.effects.leases[id].state)
  }

  /** Final results are final over a whole run exactly when no lease was planned again once it was final, which a
      caller can see in the live leases before planning. */
  lemma FinalThroughoutIff(s: Sys)
    requires Reachable(s)
    ensures FinalThroughout(s) <==> PlannedFresh(s)
  {
    hide Reachable, At, Plans, FinalLease;
    if PlannedFresh(s) {
      forall i, j, id | 0 <= i <= j <= |s.log| && id in At(s, i).view.effects.leases && FinalLease(At(s, i).view.effects.leases[id].state)
        ensures StaysIn(s, i, j, id, At(s, i).view.effects.leases[id].state)
      {
        FreshStays(s, i, j, id);
      }
    }
    if FinalThroughout(s) {
      forall n, id | 0 <= n < |s.log| && Plans(s.log[n], id) && id in At(s, n).view.effects.leases
        ensures !FinalLease(At(s, n).view.effects.leases[id].state)
      {
        if FinalLease(At(s, n).view.effects.leases[id].state) {
          assert StaysIn(s, n, n + 1, id, At(s, n).view.effects.leases[id].state);
          StateAfterPlan(s, n, id);
          PlannedNotFinal();
        }
      }
    }
  }

  lemma PlannedNotFinal()
    ensures !FinalLease(PlannedLease)
  {
  }

  lemma {:induction false} FreshStays(s: Sys, i: nat, j: nat, id: Id)
    requires Reachable(s) && i <= j <= |s.log| && PlannedFresh(s)
    requires id in At(s, i).view.effects.leases && FinalLease(At(s, i).view.effects.leases[id].state)
    ensures StaysIn(s, i, j, id, At(s, i).view.effects.leases[id].state)
    decreases j - i
  {
    hide Reachable, At, Plans, FinalLease;
    if i < j {
      FreshStays(s, i, j - 1, id);
      assert !Plans(s.log[j - 1], id);
      FinalStep(s, j - 1, id);
    }
  }

  lemma FinalStep(s: Sys, n: nat, id: Id)
    requires Reachable(s) && n < |s.log| && !Plans(s.log[n], id)
    requires id in At(s, n).view.effects.leases && FinalLease(At(s, n).view.effects.leases[id].state)
    ensures id in At(s, n + 1).view.effects.leases && At(s, n + 1).view.effects.leases[id].state == At(s, n).view.effects.leases[id].state
  {
    hide Reachable, At, Plans;
    LeaseLife(s, n, n + 1, id);
  }

  // ---- a run in which a revoked lease comes back

  const EXECUTION := Execution("x", SPACE, "n", "a", "pilot", "candidate", Requested, None, "host", None, None)
  const LEASE := EffectLease("l", SPACE, "a", "x", "effect", PlannedLease, 1, "")

  predicate NotActivationStream(id: Id) {
    |id| == 1
  }

  /** One more accepted Kernel command on a stream with a one-letter name. */
  lemma KernelStep(steps: seq<Step>, s: Sys, keys: set<string>, step: Step) returns (t: Sys)
    requires Built(steps, s, keys) && Admits(s.view, step) && step.key !in keys
    requires !step.body.ActivationEvent? && !step.body.ReceiptRecorded? && NotActivationStream(step.streamId)
    ensures Built(steps + [step], t, keys + {step.key}) && Moves(s, step, t)
  {
    hide Admits, Moves, Run, KeysOf;
    assert |STREAM| != 1;
    t := Extend(steps, s, keys, step);
  }

  /** The execution and its lease, with the lease in this state, over the activated plane. */
  ghost predicate LeaseScene(v: View, state: LeaseState) {
    && v.dataSpaceId == SPACE && v.activation.stage.Activated?
    && v.work.items.Keys == {"a", "b"} && v.work.nodes.Keys == {"n"}
    && v.agents.executions.Keys == {"x"} && v.agents.executions["x"].workItemId == "a"
    && v.effects.leases == map["l" := LEASE.(state := state)]
  }

  lemma PlannedScene() returns (steps: seq<Step>, s: Sys)
    ensures Built(steps, s, {"1", "2", "3", "4", "5", "6", "7", "8"}) && LeaseScene(s.view, PlannedLease)
  {
    hide Moves, Run, KeysOf, Built, AdmitsWork, AdmitsRoutes, AdmitsActivation, ApplyWork, ApplyRoutes, ApplyActivation, NameRegistered, ValidAgentMessage;
    steps, s := Activated0();
    ServicesOf(steps, s, {"1", "2", "3", "4", "5", "6"});
    var create := Human0("x", ExecutionCreated(EXECUTION), "7");
    var p := s;
    s := KernelStep(steps, p, {"1", "2", "3", "4", "5", "6"}, create);
    steps := steps + [create];
    ExecutionScene(p, create, s);
    assert {"1", "2", "3", "4", "5", "6"} + {"7"} == {"1", "2", "3", "4", "5", "6", "7"};
    ServicesOf(steps, s, {"1", "2", "3", "4", "5", "6", "7"});
    var plan := Pilot0("l", EffectPlanned(LEASE), "8", NoContext);
    p := s;
    s := KernelStep(steps, p, {"1", "2", "3", "4", "5", "6", "7"}, plan);
    steps := steps + [plan];
    assert {"1", "2", "3", "4", "5", "6", "7"} + {"8"} == {"1", "2", "3", "4", "5", "6", "7", "8"};
    ServicesOf(steps, s, {"1", "2", "3", "4", "5", "6", "7", "8"});
    PlanScene(p, plan, s);
  }

  lemma ExecutionScene(p: Sys, step: Step, s: Sys)
    requires Moves(p, step, s) && step == Human0("x", ExecutionCreated(EXECUTION), "7")
    requires p.view.work == WORK && p.view.agents == NO_AGENTS && p.view.effects == NO_EFFECTS && p.view.activation.stage.Activated?
    ensures s.view.work == WORK && s.view.effects == NO_EFFECTS && s.view.activation.stage.Activated?
    ensures s.view.agents.executions == map["x" := EXECUTION]
  {
    hide Moves, AdmitsAgents, NameRegistered, ValidAgentMessage;
    WorkMove(p, step, s);
    AgentMove(p, step, s);
    EffectMove(p, step, s);
    ActivationMove(p, step, s);
  }

  lemma PlanScene(p: Sys, step: Step, s: Sys)
    requires Moves(p, step, s) && step.body == EffectPlanned(LEASE) && step.streamId == "l"
    requires p.view.work.items.Keys == {"a", "b"} && p.view.work.nodes.Keys == {"n"} && p.view.activation.stage.Activated?
    requires p.view.agents.executions.Keys == {"x"} && p.view.agents.executions["x"].workItemId == "a" && p.view.effects.leases.Keys <= {"l"}
    requires s.view.dataSpaceId == SPACE
    ensures LeaseScene(s.view, PlannedLease)
  {
    hide Moves, AdmitsWork, AdmitsAgents, AdmitsEffects, AdmitsActivation, ApplyWork, ApplyAgents, ApplyActivation;
    WorkMove(p, step, s);
    AgentMove(p, step, s);
    EffectMove(p, step, s);
    ActivationMove(p, step, s);
  }

  lemma RevokedSession() returns (steps: seq<Step>, s: Sys)
    ensures Built(steps, s, {"1", "2", "3", "4", "5", "6", "7", "8", "9"}) && LeaseScene(s.view, RevokedLease)
  {
    hide Moves, Admits, Run, KeysOf, Built, LeaseScene;
    var p: Sys;
    steps, p := PlannedScene();
    var keys := {"1", "2", "3", "4", "5", "6", "7", "8"};
    var pause := Human0("a", HumanIntervention(""), "9");
    PauseAdmitted(p.view);
    s := KernelStep(steps, p, keys, pause);
    steps := steps + [pause];
    assert keys + {"9"} == {"1", "2", "3", "4", "5", "6", "7", "8", "9"};
    ServicesOf(steps, s, keys + {"9"});
    PauseScene(p, pause, s);
  }

  /** A reachable session in which a revoked lease is planned again and comes back. */
  lemma RevocationUndone() returns (s: Sys, i: nat)
    ensures Reachable(s) && i < |s.log| && LeaseScene(At(s, i).view, RevokedLease) && LeaseScene(s.view, PlannedLease)
    ensures Plans(s.log[i], "l") && !FinalThroughout(s)
  {
    hide Moves, Admits, Run, KeysOf, Built, At, Reachable, LeaseScene, FinalThroughout, Plans;
    var steps, q := RevokedSession();
    var keys := {"1", "2", "3", "4", "5", "6", "7", "8", "9"};
    var plan := Pilot0("l", EffectPlanned(LEASE), "10", NoContext);
    ReplanAdmitted(q.view);
    assert "10" !in keys by { assert |"10"| == 2; }
    s := KernelStep(steps, q, keys, plan);
    ServicesOf(steps, q, keys);
    ServicesOf(steps + [plan], s, keys + {"10"});
    BuiltReachable(steps, q, keys);
    BuiltReachable(steps + [plan], s, keys + {"10"});
    ReplanScene(q, plan, s);
    LogGrows(q, plan, s);
    i := |q.log|;
    SameLogSameState(s, q, i);
    AtEnd(s);
    NotFinal(s, i);
  }

  lemma PauseAdmitted(v: View)
    requires LeaseScene(v, PlannedLease)
    ensures Admits(v, Human0("a", HumanIntervention(""), "9"))
  {
  }

  lemma ReplanAdmitted(v: View)
    requires LeaseScene(v, RevokedLease)
    ensures Admits(v, Pilot0("l", EffectPlanned(LEASE), "10", NoContext))
  {
  }

  lemma SceneRevoked()
    ensures RevokeLeases(map["l" := LEASE.(state := PlannedLease)], "a") == map["l" := LEASE.(state := RevokedLease)]
  {
  }

  lemma ScenePaused(xs: map<Id, Execution>)
    requires xs.Keys == {"x"} && xs["x"].workItemId == "a"
    ensures PauseWorkExecutions(xs, "a").Keys == {"x"} && PauseWorkExecutions(xs, "a")["x"].workItemId == "a"
  {
  }

  lemma PauseScene(p: Sys, step: Step, s: Sys)
    requires Moves(p, step, s) && step == Human0("a", HumanIntervention(""), "9") && LeaseScene(p.view, PlannedLease)
    requires s.view.dataSpaceId == SPACE
    ensures LeaseScene(s.view, RevokedLease)
  {
    hide Moves, AdmitsWork, AdmitsAgents, AdmitsEffects, AdmitsActivation, ApplyAgents, ApplyEffects, ApplyActivation, RevokeLeases, PauseWorkExecutions;
    WorkMove(p, step, s);
    AgentMove(p, step, s);
    EffectMove(p, step, s);
    ActivationMove(p, step, s);
    SceneRevoked();
    ScenePaused(p.view.agents.executions);
    assert s.view.work.items.Keys == p.view.work.items.Keys;
  }

  lemma ReplanScene(p: Sys, step: Step, s: Sys)
    requires Moves(p, step, s) && step == Pilot0("l", EffectPlanned(LEASE), "10", NoContext) && LeaseScene(p.view, RevokedLease)
    requires s.view.dataSpaceId == SPACE
    ensures LeaseScene(s.view, PlannedLease) && Plans(StoredFor(p, step), "l")
  {
    hide Moves, Admits;
    PlanScene(p, step, s);
    LogGrows(p, step, s);
  }

  lemma NotFinal(s: Sys, i: nat)
    requires i < |s.log| && LeaseScene(At(s, i).view, RevokedLease) && LeaseScene(At(s, |s.log|).view, PlannedLease)
    ensures !FinalThroughout(s)
  {
    hide At;
    assert "l" in At(s, i).view.effects.leases && FinalLease(At(s, i).view.effects.leases["l"].state);
    assert !StaysIn(s, i, |s.log|, "l", At(s, i).view.effects.leases["l"].state);
  }

  // ---- interventions

  /** An intervention pauses the item and its running executions and revokes its planned and active leases;
      everything else of the control plane stays as it is. */
  lemma InterventionFrame(p: Sys, step: Step, s: Sys)
    requires Moves(p, step, s) && step.body.HumanIntervention?
    ensures step.streamId in p.view.work.items
    ensures s.view.work == p.view.work.(items := p.view.work.items[step.streamId := p.view.work.items[step.streamId].(state := PausedWork)])
    ensures s.view.agents == p.view.agents.(executions := s.view.agents.executions)
    ensures s.view.agents.executions.Keys == p.view.agents.executions.Keys
    ensures forall k :: k in p.view.agents.executions ==>
              var x := p.view.agents.executions[k];
              s.view.agents.executions[k] ==
                if x.workItemId == step.streamId && x.state.ActiveExecution?
                then x.(state := PausedExecution, pauseReason := Some("human_intervention")) else x
    ensures s.view.effects == p.view.effects.(leases := s.view.effects.leases)
    ensures s.view.effects.leases.Keys == p.view.effects.leases.Keys
    ensures forall k :: k in p.view.effects.leases ==>
              var l := p.view.effects.leases[k];
              s.view.effects.leases[k] ==
                if l.workItemId == step.streamId && (l.state.PlannedLease? || l.state.ActiveLease?) then l.(state := RevokedLease) else l
    ensures s.view.routes == p.view.routes && s.view.activation == p.view.activation
  {
    hide Moves, AdmitsWork, ApplyAgents, ApplyEffects, ApplyRoutes, ApplyActivation;
    WorkMove(p, step, s);
    AgentMove(p, step, s);
    EffectMove(p, step, s);
    RouteMove(p, step, s);
    ActivationMove(p, step, s);
  }
}
