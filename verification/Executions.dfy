/** Executions over whole runs: how their states may evolve, and what is recorded once only. */
module Executions {
  import opened Models
  import opened Events
  import opened Ledger
  import opened Views
  import opened Commands
  import opened Consistency
  import opened Runs

  predicate Terminal(state: ExecutionState) {
    state in {SucceededExecution, FailedExecution, CancelledExecution}
  }

  /** Where an execution may be some time after it was in `a`: a requested one anywhere, a running or
      paused one anywhere but back at requested, and a terminal one only where it is. */
  predicate StateFollows(a: ExecutionState, b: ExecutionState) {
    a == b || a.Requested? || (!Terminal(a) && !b.Requested?)
  }

  /** The same execution some time later: its identity and its work never change, a name once given stays. */
  predicate Follows(a: Execution, b: Execution) {
    && StateFollows(a.state, b.state)
    && (a.agentName.Some? ==> b.agentName == a.agentName)
    && b.executionId == a.executionId && b.workItemId == a.workItemId && b.nodeId == a.nodeId && b.pilotId == a.pilotId
    && b.dataSpaceId == a.dataSpaceId && b.candidateKey == a.candidateKey && b.pilotHostId == a.pilotHostId
  }

  ghost predicate AllFollow(xs: map<Id, Execution>, ys: map<Id, Execution>) {
    forall k :: k in xs ==> k in ys && Follows(xs[k], ys[k])
  }

  lemma FollowApplied(v: View, step: Step, e: Event, agents: AgentView)
    requires AdmitsAgents(v, step) && e.body == step.body && e.streamId == step.streamId && ApplyAgents(v.work, v.agents, e) == Ok(agents)
    ensures AllFollow(v.agents.executions, agents.executions)
  {
    hide ValidAgentMessage, NameRegistered;
  }

  lemma FollowMove(p: Sys, step: Step, s: Sys)
    requires Moves(p, step, s)
    ensures AllFollow(p.view.agents.executions, s.view.agents.executions)
  {
    hide Moves, AdmitsAgents, ApplyAgents;
    AgentMove(p, step, s);
    if InArea(step, AgentArea) {
      FollowApplied(p.view, step, EventOf(p.view, step), s.view.agents);
    }
  }

  /** Between any two points of a run every execution only moves forward. */
  lemma {:induction false} ExecutionsMoveForward(s: Sys, i: nat, j: nat)
    requires Reachable(s) && i <= j <= |s.log|
    ensures AllFollow(At(s, i).view.agents.executions, At(s, j).view.agents.executions)
    decreases j - i
  {
    hide Reachable, At, Moves;
    if i < j {
      ExecutionsMoveForward(s, i, j - 1);
      var step := EventAdmitted(s, j - 1);
      FollowMove(At(s, j - 1), step, At(s, j));
    }
  }

  // ---- recorded once

  predicate IsReceipt(d: StoredEvent, id: Id) {
    d.event.body.ReceiptRecorded? && d.event.streamId == id
  }

  predicate IsNaming(d: StoredEvent, id: Id) {
    d.event.body.AgentNameAssigned? && d.event.body.assignment.executionId == id
  }

  predicate IsCreation(d: StoredEvent, id: Id) {
    d.event.body.ExecutionCreated? && d.event.body.execution.executionId == id
  }

  /** The execution exists and has left the requested state. */
  predicate Started(xs: map<Id, Execution>, id: Id) {
    id in xs && !xs[id].state.Requested?
  }

  predicate Named(xs: map<Id, Execution>, id: Id) {
    id in xs && xs[id].agentName.Some?
  }

  /** Each kind of event needs an execution that is not there, not started or not named yet, and makes it so. */
  lemma OnceApplied(v: View, step: Step, d: StoredEvent, agents: AgentView, id: Id)
    requires AdmitsAgents(v, step) && d.event.body == step.body && d.event.streamId == step.streamId
    requires ApplyAgents(v.work, v.agents, d.event) == Ok(agents)
    ensures IsReceipt(d, id) ==> !Started(v.agents.executions, id) && Started(agents.executions, id)
    ensures IsNaming(d, id) ==> !Named(v.agents.executions, id) && Named(agents.executions, id)
    ensures IsCreation(d, id) ==> id !in v.agents.executions && id in agents.executions
  {
    hide ValidAgentMessage, NameRegistered;
  }

  lemma OnceMove(p: Sys, step: Step, s: Sys, id: Id)
    requires Moves(p, step, s)
    ensures var d := StoredFor(p, step);
            && (IsReceipt(d, id) ==> !Started(p.view.agents.executions, id) && Started(s.view.agents.executions, id))
            && (IsNaming(d, id) ==> !Named(p.view.agents.executions, id) && Named(s.view.agents.executions, id))
            && (IsCreation(d, id) ==> id !in p.view.agents.executions && id in s.view.agents.executions)
  {
    hide Moves, AdmitsAgents, ApplyAgents, Started, Named;
    AgentMove(p, step, s);
    if InArea(step, AgentArea) {
      OnceApplied(p.view, step, StoredFor(p, step), s.view.agents, id);
    }
  }

  /** An execution is created once, gets at most one receipt and at most one name. */
  lemma OneReceiptOneName(s: Sys, i: nat, j: nat, id: Id)
    requires Reachable(s) && i < j < |s.log|
    ensures IsReceipt(s.log[i], id) ==> !IsReceipt(s.log[j], id)
    ensures IsNaming(s.log[i], id) ==> !IsNaming(s.log[j], id)
    ensures IsCreation(s.log[i], id) ==> !IsCreation(s.log[j], id)
  {
    hide Reachable, At, Moves, IsReceipt, IsNaming, IsCreation;
    var first := EventAdmitted(s, i);
    var second := EventAdmitted(s, j);
    OnceMove(At(s, i), first, At(s, i + 1), id);
    OnceMove(At(s, j), second, At(s, j + 1), id);
    ExecutionsMoveForward(s, i + 1, j);
  }
}
