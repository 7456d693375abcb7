/** A concrete session from empty services to an activated plane with two ready work items. It
    shows that the states other modules reason about are reached. */
module Witness {
  import opened Models
  import opened Events
  import opened Ledger
  import opened Views
  import opened Commands
  import opened Consistency
  import opened Runs
  import opened Acceptance

  const SPACE: Id := "space"
  const STREAM: Id := "activation"

  const NODE := Node("n", SPACE, "owner", Unit, None, "")

  function ReadyItem(id: Id): WorkItem {
    WorkItem(id, SPACE, "n", "n", "n", None, ["done"], "route", Ready, [], None, "")
  }

  const GRAPH := WorkGraph("graph", SPACE, [NODE], [ReadyItem("a"), ReadyItem("b")], [],
                           WorkGraphDigest("graph", SPACE, [NODE], [ReadyItem("a"), ReadyItem("b")], []))

  const WORK := WorkView(map["n" := NODE], map["a" := ReadyItem("a"), "b" := ReadyItem("b")], [], map[])
  const NO_AGENTS := AgentView(map[], map[], map[], map[])
  const NO_EFFECTS := EffectView(map[], map[], map[], map[], map[])

  /** A session that records no receipt leads from empty services to `s`, with these keys used. */
  ghost predicate Built(steps: seq<Step>, s: Sys, keys: set<string>) {
    && Run(Start(SPACE, STREAM), steps) == s
    && s.view.dataSpaceId == SPACE && s.view.activation.streamId == STREAM
    && KeysOf(s.log) == keys
    && forall i :: 0 <= i < |steps| ==> !steps[i].body.ReceiptRecorded?
  }

  /** A built state is a reachable one. */
  lemma BuiltReachable(steps: seq<Step>, s: Sys, keys: set<string>)
    requires Built(steps, s, keys)
    ensures Reachable(s)
  {
    hide Run;
    RunReachable(SPACE, STREAM, steps);
  }

  /** One more accepted command. */
  lemma Extend(steps: seq<Step>, s: Sys, keys: set<string>, step: Step) returns (t: Sys)
    requires Built(steps, s, keys) && Admits(s.view, step) && step.key !in keys && OwnStream(s.view, step)
    requires !step.body.ReceiptRecorded?
    ensures Built(steps + [step], t, keys + {step.key}) && Moves(s, step, t)
  {
    hide Reachable, Admits, Moves, Accepted, Exec;
    BuiltReachable(steps, s, keys);
    KeyUsedIff(s.log, step.key);
    AcceptedIff(s, step);
    AcceptedMoves(s, step);
    t := Exec(s, step);
    SameServices(s, step);
    assert (steps + [step])[..|steps|] == steps;
  }

  lemma SameServices(s: Sys, step: Step)
    requires Reachable(s)
    ensures Exec(s, step).view.dataSpaceId == s.view.dataSpaceId && Exec(s, step).view.activation.streamId == s.view.activation.streamId
  {
    hide Reachable, Inv, Exec;
    ReachableInv(s);
    InvStep(s, step);
  }

  lemma NothingBuilt()
    ensures Built([], Start(SPACE, STREAM), {})
  {
  }

  // ---- to the activation

  function Human0(streamId: Id, body: EventBody, key: string): Step {
    Step(streamId, body, Human, Some("owner"), key, 0, 0, NoContext)
  }

  function Pilot0(streamId: Id, body: EventBody, key: string, context: Context): Step {
    Step(streamId, body, Pilot, Some("pilot"), key, 0, 0, context)
  }

  lemma GraphById()
    ensures NodesById(GRAPH.nodes) == map["n" := NODE]
    ensures WorkItemsById(GRAPH.workItems) == map["a" := ReadyItem("a"), "b" := ReadyItem("b")]
  {
    assert GRAPH.nodes[..0] == [];
    assert GRAPH.workItems[..1] == [ReadyItem("a")] && GRAPH.workItems[..1][..0] == [];
  }

  lemma GraphImportable(v: View)
    requires v == NewView(SPACE, STREAM)
    ensures Admits(v, Human0("graph", WorkGraphImported(GRAPH), "1"))
  {
    GraphById();
    assert GRAPH.workItems[0].state.Ready?;
    assert "a" != "b" by { assert "a"[0] != "b"[0]; }
  }

  /** The imported plane, apart from the activation service's own progress. */
  ghost predicate Imported(s: Sys) {
    s.view.work == WORK && s.view.agents == NO_AGENTS && s.view.effects == NO_EFFECTS && s.view.routes == map[] && STREAM !in s.view.versions
  }

  lemma ImportGraph() returns (steps: seq<Step>, s: Sys)
    ensures Built(steps, s, {"1"}) && Imported(s)
    ensures s.view.activation == NewActivation(STREAM).(workGraphSnapshotId := Some("graph"))
  {
    hide Admits, Moves, Built, Imported;
    var start, step := Start(SPACE, STREAM), Human0("graph", WorkGraphImported(GRAPH), "1");
    NothingBuilt();
    GraphImportable(start.view);
    s := Extend([], start, {}, step);
    steps := [] + [step];
    assert {} + {"1"} == {"1"};
    ImportMoved(start, step, s);
  }

  lemma ImportMoved(p: Sys, step: Step, s: Sys)
    requires p == Start(SPACE, STREAM) && step == Human0("graph", WorkGraphImported(GRAPH), "1") && Moves(p, step, s)
    ensures Imported(s) && s.view.activation == NewActivation(STREAM).(workGraphSnapshotId := Some("graph"))
  {
    hide Moves, AdmitsWork, AdmitsAgents, AdmitsEffects, AdmitsRoutes, AdmitsActivation, ApplyAgents, ApplyEffects, ApplyRoutes, ApplyActivation,
      NodesById, WorkItemsById;
    GraphById();
    assert "graph" != STREAM by { assert |"graph"| != |STREAM|; }
    WorkMove(p, step, s);
    AgentMove(p, step, s);
    EffectMove(p, step, s);
    RouteMove(p, step, s);
    ActivationMove(p, step, s);
    KernelVersions(p, step, s);
  }

  /** The import of the verified history. */
  const RECEIPT := ImportReceipt("import", SPACE, REQUIRED_KINDS, 0, [], "index")

  /** The accepted assessment; it cites the recorded query of the current state. */
  function AssessmentAt(cursor: nat): Assessment {
    Assessment("assessment", "import", "talk", 0, 0, [], ["a"], "index", 0, cursor, cursor,
               [Citation(Understanding, EventId(SPACE, STREAM, "4"))], "")
  }

  /** One more accepted activation command over the imported plane. */
  lemma Progress(steps: seq<Step>, s: Sys, keys: set<string>, step: Step) returns (t: Sys)
    requires Built(steps, s, keys) && Imported(s) && step.body.ActivationEvent? && step.key !in keys
    requires AdmitsActivation(SPACE, s.view.activation, step)
    ensures Built(steps + [step], t, keys + {step.key}) && Imported(t)
    ensures ApplyActivation(s.view.activation, StoredFor(s, step)) == Ok(t.view.activation)
  {
    hide Moves, AdmitsActivation, ApplyActivation, Run, KeysOf;
    OwnsStream(s, step);
    t := Extend(steps, s, keys, step);
    WorkMove(s, step, t);
    AgentMove(s, step, t);
    EffectMove(s, step, t);
    RouteMove(s, step, t);
    ActivationMove(s, step, t);
    assert t.view.versions == s.view.versions by { KernelVersions(s, step, t); }
  }

  lemma OwnsStream(s: Sys, step: Step)
    requires step.body.ActivationEvent? && AdmitsActivation(s.view.dataSpaceId, s.view.activation, step)
    requires s.view.activation.streamId == STREAM && STREAM !in s.view.versions
    ensures OwnStream(s.view, step)
  {
  }

  lemma KernelVersions(p: Sys, step: Step, s: Sys)
    requires Moves(p, step, s)
    ensures step.body.ActivationEvent? ==> s.view.versions == p.view.versions
    ensures !step.body.ActivationEvent? ==> s.view.versions == p.view.versions[step.streamId := Expected(p.view, step) + 1]
  {
    hide AdmitsWork, AdmitsAgents, AdmitsEffects, AdmitsRoutes, AdmitsActivation,
      ApplyWork, ApplyAgents, ApplyEffects, ApplyRoutes, ApplyActivation, PauseWorkExecutions, RevokeLeases;
  }

  lemma Reorienting() returns (steps: seq<Step>, s: Sys)
    ensures Built(steps, s, {"1", "2", "3"}) && Imported(s)
    ensures var a := s.view.activation;
            && a.stage.ReorientationOnly? && a.attempt.inProgress && a.history.receipt == Some(RECEIPT)
            && a.history.conversationId == Some("talk") && a.streamId == STREAM
  {
    hide Moves, Run, Imported, Built, KeysOf;
    steps, s := ImportGraph();
    var register := Human0(STREAM, ActivationEvent(HistoryImportVerified(RECEIPT, "talk")), "2");
    s := Progress(steps, s, {"1"}, register);
    steps := steps + [register];
    var start := Pilot0(STREAM, ActivationEvent(ReorientationStarted), "3", NoContext);
    assert {"1"} + {"2"} == {"1", "2"};
    s := Progress(steps, s, {"1", "2"}, start);
    steps := steps + [start];
    assert {"1", "2"} + {"3"} == {"1", "2", "3"};
  }

  lemma Assessed() returns (steps: seq<Step>, s: Sys)
    ensures Built(steps, s, {"1", "2", "3", "4", "5"}) && Imported(s)
    ensures var a := s.view.activation;
            a.stage.AwaitingOwner? && a.assessment.Some? && a.assessment.value.assessmentId == "assessment" && a.streamId == STREAM
  {
    hide Moves, Run, Imported, Built, KeysOf;
    steps, s := Reorienting();
    var query := Pilot0(STREAM, ActivationEvent(HistoryQueryResolved(GetCurrentState)), "4", NoContext);
    var p := s;
    s := Progress(steps, p, {"1", "2", "3"}, query);
    steps := steps + [query];
    assert {"1", "2", "3"} + {"4"} == {"1", "2", "3", "4"};
    assert p.view.dataSpaceId == SPACE by { hide *; ServicesOf(steps[..|steps| - 1], p, {"1", "2", "3"}); }
    var x := AssessmentAt(s.view.activation.history.cursor);
    var submit := Pilot0(STREAM, ActivationEvent(AssessmentAccepted(x)), "5", AssessmentContext({}, {"a", "b"}, true));
    assert x.citations[0].claim == Understanding;
    s := Progress(steps, s, {"1", "2", "3", "4"}, submit);
    steps := steps + [submit];
    assert {"1", "2", "3", "4"} + {"5"} == {"1", "2", "3", "4", "5"};
  }

  lemma ServicesOf(steps: seq<Step>, s: Sys, keys: set<string>)
    requires Built(steps, s, keys)
    ensures s.view.dataSpaceId == SPACE && s.view.activation.streamId == STREAM
  {
    hide Run;
  }

  /** An activated plane with two ready items and nothing else is reached. */
  lemma Activated0() returns (steps: seq<Step>, s: Sys)
    ensures Built(steps, s, {"1", "2", "3", "4", "5", "6"}) && Imported(s) && s.view.activation.stage.Activated?
  {
    hide Moves, Run, Imported, Built, KeysOf;
    steps, s := Assessed();
    var approve := Human0(STREAM, ActivationEvent(ActivationApproved("assessment", 0)), "6");
    s := Progress(steps, s, {"1", "2", "3", "4", "5"}, approve);
    steps := steps + [approve];
    assert {"1", "2", "3", "4", "5"} + {"6"} == {"1", "2", "3", "4", "5", "6"};
  }
}
