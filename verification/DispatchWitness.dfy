/** A reachable state in which a dispatch under a repeated key passes every check and then stops half way. */
module DispatchWitness {
  import opened Models
  import opened Events
  import opened Ledger
  import opened Views
  import opened Commands
  import opened Consistency
  import opened Runs
  import opened Acceptance
  import opened WorkRules
  import opened Routes
  import opened Witness
  import opened Leases
  import opened Naming
  import opened Dispatch
  import opened DispatchBatch
  import Graph

  const DRAFT := RouteSnapshot("r", SPACE, "route", 0, ["candidate"], Draft, None, None)

  const BINDING := Binding("n", "pilot", "host")

  const ROUTING := Routing((r: RouteSnapshot) => Some("candidate"), (key: string) => true, 0, (key: string) => None, (key: string) => English)

  const CALLER := Caller("owner", "k", 0, 0)

  function ItemPlan(id: Id): Planned {
    Planned(id, BINDING, "candidate", None, English)
  }

  /** The execution that an earlier dispatch under the same key created for item b. */
  const EARLIER := Execution("x", SPACE, "n", "b", "pilot", "candidate", Requested, None, "host", None, None)

  /** An activated plane with the two ready items, these executions and this state of the route. */
  ghost predicate Scene(v: View, executions: map<Id, Execution>, state: Option<RouteState>) {
    && v.dataSpaceId == SPACE && v.activation.streamId == STREAM && v.activation.stage.Activated? && v.work == WORK
    && v.agents.executions == executions
    && if state.None? then v.routes == map[]
       else v.routes.Keys == {"r"} && v.routes["r"].(s3StarApprovalEvent := None, ownerApprovalEvent := None) == DRAFT.(state := state.value)
  }

  lemma RouteScene(p: Sys, step: Step, s: Sys, executions: map<Id, Execution>, from: Option<RouteState>, to: RouteState)
    requires Moves(p, step, s) && InArea(step, RouteArea) && Scene(p.view, executions, from) && step.streamId == "r"
    requires s.view.dataSpaceId == SPACE && s.view.activation.streamId == STREAM
    requires match step.body
             case RouteRegistered(r) => r == DRAFT && from.None? && to.Draft?
             case RouteSnapshotApproved(_, state) => from.Some? && state == to
             case RoutePublished => from.Some? && to.Published?
             case _ => false
    ensures Scene(s.view, executions, Some(to))
  {
    hide Moves, AdmitsWork, AdmitsAgents, AdmitsEffects, AdmitsRoutes, AdmitsActivation, ApplyWork, ApplyAgents, ApplyActivation;
    WorkMove(p, step, s);
    AgentMove(p, step, s);
    RouteMove(p, step, s);
    ActivationMove(p, step, s);
  }

  lemma ExecutionsScene(p: Sys, step: Step, s: Sys, executions: map<Id, Execution>, state: Option<RouteState>, next: map<Id, Execution>)
    requires Moves(p, step, s) && InArea(step, AgentArea) && Scene(p.view, executions, state)
    requires s.view.dataSpaceId == SPACE && s.view.activation.streamId == STREAM
    requires match step.body
             case ExecutionCreated(x) => next == executions[x.executionId := x]
             case ExecutionStateChanged(to, reason) =>
               step.streamId in executions && next == executions[step.streamId := executions[step.streamId].(state := to, pauseReason := reason)]
             case _ => false
    ensures Scene(s.view, next, state)
  {
    hide Moves, AdmitsWork, AdmitsAgents, AdmitsEffects, AdmitsRoutes, AdmitsActivation, ApplyWork, ApplyRoutes, ApplyActivation;
    WorkMove(p, step, s);
    AgentMove(p, step, s);
    RouteMove(p, step, s);
    ActivationMove(p, step, s);
  }

  /** The route of both items is published. */
  lemma RoutePublishedScene() returns (steps: seq<Step>, s: Sys)
    ensures Built(steps, s, {"1", "2", "3", "4", "5", "6", "7", "8", "9", "0"}) && Scene(s.view, map[], Some(Published))
  {
    hide Moves, Run, KeysOf, Built, Scene, Admits;
    steps, s := Activated0();
    var keys := {"1", "2", "3", "4", "5", "6"};
    ServicesOf(steps, s, keys);
    EmptyScene(s);
    steps, s := RouteStep(steps, s, keys, RouteRegistered(DRAFT), "7", None, Draft);
    assert keys + {"7"} == {"1", "2", "3", "4", "5", "6", "7"};
    steps, s := RouteStep(steps, s, keys + {"7"}, RouteSnapshotApproved(S3StarApproval, S3StarApproved), "8", Some(Draft), S3StarApproved);
    steps, s := RouteStep(steps, s, keys + {"7"} + {"8"}, RouteSnapshotApproved(OwnerApproval, OwnerApproved), "9", Some(S3StarApproved), OwnerApproved);
    steps, s := RouteStep(steps, s, keys + {"7"} + {"8"} + {"9"}, RoutePublished, "0", Some(OwnerApproved), Published);
    assert keys + {"7"} + {"8"} + {"9"} + {"0"} == {"1", "2", "3", "4", "5", "6", "7", "8", "9", "0"};
  }

  lemma EmptyScene(s: Sys)
    requires Imported(s) && s.view.dataSpaceId == SPACE && s.view.activation.streamId == STREAM && s.view.activation.stage.Activated?
    ensures Scene(s.view, map[], None)
  {
  }

  lemma RouteStep(steps: seq<Step>, s: Sys, keys: set<string>, body: EventBody, key: string, from: Option<RouteState>, to: RouteState)
    returns (steps': seq<Step>, t: Sys)
    requires Built(steps, s, keys) && key !in keys && Scene(s.view, map[], from)
    requires match body
             case RouteRegistered(r) => r == DRAFT && from.None? && to.Draft?
             case RouteSnapshotApproved(approval, state) =>
               from.Some? && state == to && ((approval.S3StarApproval? && from == Some(Draft) && to.S3StarApproved?)
                                             || (approval.OwnerApproval? && from == Some(S3StarApproved) && to.OwnerApproved?))
             case RoutePublished => from == Some(OwnerApproved) && to.Published?
             case _ => false
    ensures Built(steps', t, keys + {key}) && Scene(t.view, map[], Some(to))
  {
    hide Moves, Run, KeysOf, Built, Scene, Admits;
    var step := Human0("r", body, key);
    RouteAdmitted(s.view, step, from);
    t := KernelStep(steps, s, keys, step);
    steps' := steps + [step];
    ServicesOf(steps', t, keys + {key});
    RouteScene(s, step, t, map[], from, to);
  }

  lemma RouteAdmitted(v: View, step: Step, from: Option<RouteState>)
    requires Scene(v, map[], from) && step == Human0("r", step.body, step.key)
    requires match step.body
             case RouteRegistered(r) => r == DRAFT
             case RouteSnapshotApproved(approval, state) =>
               || (approval.S3StarApproval? && from == Some(Draft) && state.S3StarApproved?)
               || (approval.OwnerApproval? && from == Some(S3StarApproved) && state.OwnerApproved?)
             case RoutePublished => from == Some(OwnerApproved)
             case _ => false
    ensures Admits(v, step)
  {
    hide AdmitsWork, AdmitsAgents, AdmitsEffects, AdmitsActivation;
  }

  lemma CreationAdmitted(v: View)
    requires Scene(v, map[], Some(Published))
    ensures Admits(v, Human0("x", ExecutionCreated(EARLIER), "k:b"))
  {
    hide AdmitsWork, AdmitsEffects, AdmitsRoutes, AdmitsActivation, NameRegistered, ValidAgentMessage, AssignmentFor;
  }

  lemma FailureAdmitted(v: View)
    requires Scene(v, map["x" := EARLIER], Some(Published))
    ensures Admits(v, Human0("x", ExecutionStateChanged(FailedExecution, None), "f"))
  {
    hide AdmitsWork, AdmitsEffects, AdmitsRoutes, AdmitsActivation, NameRegistered, ValidAgentMessage, AssignmentFor;
  }

  /** The earlier dispatch under the key "k" created an execution for item b, and it failed. */
  lemma RepeatedKeyScene() returns (steps: seq<Step>, s: Sys)
    ensures Built(steps, s, {"1", "2", "3", "4", "5", "6", "7", "8", "9", "0", "k:b", "f"})
    ensures Scene(s.view, map["x" := EARLIER.(state := FailedExecution)], Some(Published))
  {
    hide Moves, Run, KeysOf, Built, Scene, Admits;
    steps, s := RoutePublishedScene();
    var keys := {"1", "2", "3", "4", "5", "6", "7", "8", "9", "0"};
    var create, fail := Human0("x", ExecutionCreated(EARLIER), "k:b"), Human0("x", ExecutionStateChanged(FailedExecution, None), "f");
    CreationAdmitted(s.view);
    assert "k:b" !in keys by { assert |"k:b"| == 3; }
    var p := s;
    s := KernelStep(steps, p, keys, create);
    steps := steps + [create];
    ServicesOf(steps, s, keys + {"k:b"});
    ExecutionsScene(p, create, s, map[], Some(Published), map["x" := EARLIER]);
    FailureAdmitted(s.view);
    assert "f" !in keys + {"k:b"};
    p := s;
    s := KernelStep(steps, p, keys + {"k:b"}, fail);
    steps := steps + [fail];
    ServicesOf(steps, s, keys + {"k:b"} + {"f"});
    ExecutionsScene(p, fail, s, map["x" := EARLIER], Some(Published), map["x" := EARLIER.(state := FailedExecution)]);
    assert keys + {"k:b"} + {"f"} == {"1", "2", "3", "4", "5", "6", "7", "8", "9", "0", "k:b", "f"};
  }

  /** A reachable state in which items a and b are eligible and can be planned, and a dispatch under the repeated key
      "k" starts a, with whatever fresh identities, and stops before b. */
  lemma HalfwayReached(ids: seq<FreshIds>) returns (s: Sys)
    requires |ids| == 2 && ids[0].executionId !in {"x", STREAM} && ids[1].executionId !in {"x", STREAM}
    ensures Reachable(s)
    ensures forall id :: Eligible(s.view.work, s.view.agents, None, id) <==> id in {"a", "b"}
    ensures Dispatchable(s.view, [BINDING], ROUTING, ["a", "b"])
    ensures var a, u, plan := s.view.activation, UsedIn(s.view.agents, s.log, {}), [ItemPlan("a"), ItemPlan("b")];
            FitsInTurn(a, u, None, plan, ids, CALLER, 0) && !FitsInTurn(a, u, None, plan, ids, CALLER, 1)
  {
    hide Moves, Run, KeysOf, Built, Reachable, Scene, FitsInTurn;
    var steps: seq<Step>;
    steps, s := RepeatedKeyScene();
    var keys := {"1", "2", "3", "4", "5", "6", "7", "8", "9", "0", "k:b", "f"};
    BuiltReachable(steps, s, keys);
    assert KeysOf(s.log) == keys by { BuiltKeys(steps, s, keys); }
    SceneEligible(s.view);
    SceneFits(s, ids);
  }

  lemma BuiltKeys(steps: seq<Step>, s: Sys, keys: set<string>)
    requires Built(steps, s, keys)
    ensures KeysOf(s.log) == keys
  {
    hide Run, KeysOf;
  }

  lemma SceneEligible(v: View)
    requires Scene(v, map["x" := EARLIER.(state := FailedExecution)], Some(Published))
    ensures forall id :: Eligible(v.work, v.agents, None, id) <==> id in {"a", "b"}
    ensures Dispatchable(v, [BINDING], ROUTING, ["a", "b"])
  {
    assert Graph.Dependencies(v.work.edges) == {};
    assert forall id :: id in {"a", "b"} ==> !Busy(v.agents, id);
    assert "r" in v.routes && v.routes["r"].state.Published? && v.routes["r"].routeKey == "route" && v.routes["r"].evidenceCursor == 0;
    assert ROUTING.select(v.routes["r"]) == Some("candidate") && ROUTING.accepts("candidate");
    assert [BINDING][0].nodeId == "n";
    assert forall id :: id in ["a", "b"] ==> Plannable(v.work, v.routes, [BINDING], ROUTING, id);
    assert OnePublished(v.routes);
  }

  lemma SceneFits(s: Sys, ids: seq<FreshIds>)
    requires |ids| == 2 && ids[0].executionId !in {"x", STREAM} && ids[1].executionId !in {"x", STREAM}
    requires Scene(s.view, map["x" := EARLIER.(state := FailedExecution)], Some(Published))
    requires KeysOf(s.log) == {"1", "2", "3", "4", "5", "6", "7", "8", "9", "0", "k:b", "f"}
    ensures var a, u, plan := s.view.activation, UsedIn(s.view.agents, s.log, {}), [ItemPlan("a"), ItemPlan("b")];
            FitsInTurn(a, u, None, plan, ids, CALLER, 0) && !FitsInTurn(a, u, None, plan, ids, CALLER, 1)
  {
    hide KeysOf;
    var plan := [ItemPlan("a"), ItemPlan("b")];
    assert CreationKey(plan[0], CALLER) == "k:a" && CreationKey(plan[1], CALLER) == "k:b";
    assert "k:a" !in KeysOf(s.log) by { assert |"k:a"| == 3 && "k:a"[2] != "k:b"[2]; }
    var u := UsedIn(s.view.agents, s.log, {});
    assert UsedAfter(u, plan, ids, CALLER, false, 0) == u;
    assert UsedAfter(u, plan, ids, CALLER, false, 1) == UsedNext(u, plan[0], ids[0], CALLER, false);
    assert "k:b" in UsedNext(u, plan[0], ids[0], CALLER, false).keys;
  }
}
