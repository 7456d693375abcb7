# Verified model of the event-sourced control plane

The control plane records every command as an event in an append-only ledger with optimistic
per-stream versions. The Kernel and the activation service check a command, append its event and
update their own dictionaries; a projection, written separately, rebuilds the same dictionaries
from the ledger after a restart. Around this core sit the audit reader, the dispatcher, the agent
name registry, the PilotHost with its receipt store, the client of the remote ledger and the
interface that applies a Pilot's actions. This project models these parts in Dafny and proves what
they keep over whole runs.

## Structure

- `Models`, `Events`: entities, state enumerations, the event envelope and the typed event bodies.
- `Ledger`: appending as decided by a scan of the list, and the indexed ledger class that refines it.
- `Views`: all dictionaries and `Apply`, the fold step of the projection's handlers.
- `Commands`: for each command the guard, the recorded event and the next state; `Reachable` states
  are those that sessions of commands lead to from empty services.
- `Consistency`: the joint invariant and the law that live state equals replay.
- `Activation`, `Kernel`, `Projection`, `Runtime`: the classes that update fields in place, each method
  proved to move the state exactly as the functions above say, and a restart.
- `Runs`: every reachable ledger is a chain of admitted commands; the rules over runs are proved by
  walking this chain in `Routes`, `WorkRules`, `Findings`, `Executions`, `Leases`, `ActivationRules` and `Stories`.
- `Acceptance`, `Refusals`: when a command is accepted, and the errors of every command one by one; `Handlers`: when
  the projection raises. `Witness`: a session that reaches an
  activated plane, which the examples of failing properties extend.
- `Dispatch`, `DispatchBatch`, `DispatchWitness`: selection and planning; starting a batch and a whole dispatch;
  a dispatch that stops half way.
- `Naming`, `Identities`: the name registry, and the Kernel together with it.
- `Receipts`, `CrossProcess`, `CrossWitness`: the host; the host together with the Kernel; when
  a success is recorded.
- `Lethe`, `Remote`, `RemoteRetry`, `RemoteWitness`: the client of the remote ledger; the Kernel on top of it; retries;
  runs on which its law fails.
- `InterfaceActions`, `InterfaceApply`: validation of a response, and its application.
- `Audit`, `Deltas`: the audit reader and event summaries. `Graph` and `Text` hold graphs and numerals.

## Reading the model

- Clock readings and fresh identities are inputs of commands. JSON documents are compared for equality
  only, and a SHA-256 digest is the value it was computed from, which makes it injective.
- Text that no rule looks at is one `note` per record. Fields of the Kernel and of the activation service
  that belong together are grouped into records.
- A promotion of a notification is two recorded commands, as in the source.
- An execution or work item may be named by any string; identity syntax is not modelled.

## What the proofs found

- `create_work_item`, `plan_effect` and `record_s3_star_finding` overwrite a known identity. The replay law
  holds nevertheless. A final lease stays final exactly when it is not planned again (`Leases.FinalStaysIff`);
  `Leases.RevocationUndone` is a run that brings a revoked one back.
- An import is not checked for cycles or for blockers that contradict states. The dependencies are acyclic
  exactly when the imported ones were, and blockers agree throughout exactly when the imported ones did.
- A response that creates an identity twice can pass the interface validation and then be refused by the Kernel
  for a cycle (`InterfaceActions.RepeatedCreationMisleads`, `InterfaceApply.RepeatedCreationStops`); the accumulated
  graph predicts it exactly. A dependency listed twice passes the validation as well and is refused
  (`InterfaceApply.TwiceListedStops`).
- The reorientation delta accepts an interval that runs backwards, where the interface delta refuses it.
- The dispatcher takes a delta also when it starts nothing, and drops it: those events reach no call
  (`Deltas.ReachesCallIff`).
- A notification that is delivered with a promotion in its payload never traces as verified.
- A dispatch can stop half way and leave the executions it created before as requested, without a call. It starts
  everything exactly when the batch fits at the call (`DispatchBatch.BatchFitsIff`); a repeated dispatch key is an
  input on which it does not (`DispatchWitness.HalfwayReached`).
- A success of the host is recorded as one exactly when the call was given a final answer whose result validates
  (`CrossWitness.SuccessRecordedIff`). A call whose GET finds the receipt in progress, and one whose result does not
  validate, are recorded as failed, for good. Receipts are recorded by the dispatcher only, `vsm/dispatcher.py` lines
  413, 455 and 532.
- Over the remote ledger the live views lag while the event of an unanswered command is stored. Live equals replay after
  every answer exactly when no other command overtakes (`Remote.LawAtAnswersIff`). A retry of the command restores it,
  except for `approve_effect` and the activation's `approve`: they write the clock reading of the call into their event,
  so that a later call under the same key is a different event and is refused for good (`RemoteRetry.RetryAnsweredIff`,
  `RemoteWitness.ApprovalLost`).
- The client reports a server error as a definite violation although the event may be stored (`Lethe.RefusedYetStoredIff`).
- A severe finding that is recorded anew on another item stays among the blockers of the first until that item is created
  anew or the finding recorded on it again; accepting its risk does not help (`Findings.StrandedThroughoutIff`, reached in `Findings.StrandedReached`).

## Model

| member | source | states |
|---|---|---|
| `Consistency.LiveEqualsReplay` | vsm/projection.py:89-592 | For every sequence of accepted or rejected commands from empty services, replaying the ledger never raises and yields exactly the live dictionaries, edge list, activation fields and stream versions. |
| `Consistency.ConsistentStep` | vsm/projection.py:102-592 | The handler of an event whose command was admitted never raises, and the joint invariant of all views survives it. |
| `Consistency.InvStep` | vsm/kernel/service.py:101-134 | Every command, accepted or not, keeps a well-formed ledger, stream versions in step with it, and live state equal to replay. |
| `Consistency.SyncStep` | vsm/kernel/service.py:113-134 | Each stream is written by one service, whose version stays the stream's length. |
| `Consistency.NeverDuplicate` | vsm/kernel/service.py:113-134 | A command of a service in step with the ledger is appended or refused, never answered as a duplicate. |
| `Consistency.UsedKeyRecordsNothing` | vsm/kernel/ledger.py:40-52 | A command that reuses an idempotency key records nothing and changes nothing. |
| `Consistency.WorkStep` | vsm/projection.py:156-215 | Work events of admitted commands are accepted by the handlers; nodes, items, edges and findings stay keyed and closed, and no item disappears. |
| `Consistency.AgentStep` | vsm/projection.py:217-388 | Agent events of admitted commands are accepted; assignments stay linked to their executions and assigned names stay distinct. |
| `Consistency.ActivationStep` | vsm/projection.py:781-906 | Activation events of admitted commands are accepted and keep the stage and attempt invariant. |
| `Consistency.KnownReferences` | vsm/kernel/service.py:188-295 | In every reachable state edges join known items, findings and executions name known items, assignments are linked to their executions, and assigned names are distinct. |
| `Views.ReplayResumes` | vsm/projection.py:89-100 | Stopping a replay at any prefix and resuming from the state reached there changes nothing. |
| `Views.ReplaySnoc` | vsm/projection.py:95-100 | Replaying one more event is replaying the others and applying it, if its cursor follows. |
| `Runs.PrefixReachable` | vsm/kernel/service.py:101-134 | Every prefix of a reachable ledger is itself the ledger of a reachable state. |
| `Runs.EventAdmitted` | vsm/kernel/service.py:101-134 | Each event of a reachable ledger was admitted in the state rebuilt from the events before it and leads to the state of the events up to it. |
| `Runs.Before` | vsm/kernel/service.py:101-134 | A reachable non-empty ledger was reached by one accepted command from a reachable state. |
| `Acceptance.AcceptedIff` | vsm/kernel/service.py:101-134 | In every reachable state a command is accepted exactly when its guards hold, its idempotency key is unused, and its stream is not the other service's. |
| `Refusals.AcceptedUnlessRefused` | vsm/kernel/service.py:140-1450 | In every reachable state a command is accepted exactly when none of the errors listed for it applies, its key is unused and its stream is not the other service's. |
| `Refusals.RecordedUnrefused` | vsm/kernel/service.py:140-1450 | Every event of a reachable ledger was recorded by its own actor kind on its own stream, when no error of its command applied. |
| `Refusals.RecordedEvent` | vsm/kernel/service.py:101-134 | An accepted command records its event under the next cursor and stream version, with the identity of its stream and key, its actor, clock reading, correlation and causation. |
| `Ledger.InMemoryLedger.Append` | vsm/kernel/ledger.py:35-77 | The index-based append answers what a scan of the whole list would answer and adds exactly that event, if any; the three indexes stay views of the list. |
| `Ledger.InMemoryLedger.Page` | vsm/kernel/ledger.py:79-82 | A page is the clamped slice after the cursor; a negative cursor or non-positive limit is refused. |
| `Ledger.InMemoryLedger.Stream` | vsm/kernel/ledger.py:84-91 | A stream page is the clamped slice of the filter of the global list. |
| `Ledger.AppendKeepsWellFormed` | vsm/kernel/ledger.py:35-77 | After any append, cursors and stream versions are gapless from 1 and keys and event ids are unique. |
| `Ledger.StaleWriterNeverAppends` | vsm/kernel/ledger.py:62-64 | A writer whose expected version is not the stream length never adds an event. |
| `Ledger.RetryIsDuplicate` | vsm/kernel/ledger.py:40-61 | Offering an appended event again, with any expected version, finds it and adds nothing. |
| `Ledger.StreamCursorsIncrease` | vsm/kernel/ledger.py:72-74 | Within a stream the cursors strictly increase. |
| `Ledger.SliceItems` | vsm/kernel/ledger.py:79-91 | A page holds the next elements in order and is empty exactly at or beyond the end. |
| `Projection.OperationalProjection.Rebuild` | vsm/projection.py:89-100 | With any page size, rebuilding equals the fold of all events after the cursor; when a handler raises, the views are those of the last good event. |
| `Projection.OperationalProjection.ApplyEvent` | vsm/projection.py:102-148 | Data space and version checks, then the handler, move the live views exactly as the pure fold step does. |
| `Projection.OperationalProjection.OnWork` | vsm/projection.py:156-215 | The in-place work handlers equal the work part of the fold step. |
| `Projection.OperationalProjection.OnWorkItem` | vsm/projection.py:447-473 | The in-place handlers of one work item equal the fold step. |
| `Projection.OperationalProjection.OnIntervention` | vsm/projection.py:405-429 | The in-place intervention handler pauses and revokes as the fold step does. |
| `Projection.OperationalProjection.OnAgents` | vsm/projection.py:217-388 | The in-place execution and naming handlers equal the fold step, including every refusal. |
| `Projection.OperationalProjection.OnNotification` | vsm/projection.py:222-274 | The in-place notification handlers equal the fold step, including every refusal. |
| `Projection.OperationalProjection.OnEffects` | vsm/projection.py:349-403 | The in-place grant, budget and effect handlers equal the fold step. |
| `Projection.OperationalProjection.OnRoutes` | vsm/projection.py:495-592 | The in-place route handlers equal the fold step, including the retirement checks. |
| `Projection.OperationalProjection.OnActivation` | vsm/projection.py:781-906 | The in-place activation handlers equal the fold step. |
| `Runtime.Bootstrap` | vsm/runtime.py:255-282 | A process restarted over a ledger left in reachable state `s` rebuilds exactly `s` from the ledger alone and restores the name registry to exactly the recorded names, which raises exactly when these are not distinct or have lost their rows; a lost attempt is then interrupted by one ordinary command. |
| `Activation.ActivationService.Record` | vsm/activation/service.py:59-88 | Appends the event of an admitted command with the service version and moves the version. |
| `Activation.ActivationService.RegisterHistoryImport` | vsm/activation/service.py:90-149 | Registering the import succeeds exactly when admitted and appended; then exactly the stated fields change, as the projection derives them from the event, and otherwise nothing changes; repeating the stored receipt is answered without an event. |
| `Activation.ActivationService.StartReorientation` | vsm/activation/service.py:151-190 | Starting a first attempt, a retry after an error or one after a revision request succeeds exactly when admitted and appended; then exactly the stated fields change, as the projection derives them from the event, and otherwise nothing changes. |
| `Activation.ActivationService.RecordFailure` | vsm/activation/service.py:192-213 | Recording a failure succeeds exactly when admitted and appended; then exactly the stated fields change, as the projection derives them from the event, and otherwise nothing changes. |
| `Activation.ActivationService.InterruptAttempt` | vsm/activation/service.py:215-246 | Interrupting a running attempt succeeds exactly when admitted and appended; then exactly the stated fields change, as the projection derives them from the event, and otherwise nothing changes. |
| `Activation.ActivationService.CheckpointSession` | vsm/activation/service.py:248-274 | A session checkpoint succeeds exactly when admitted and appended; then exactly the stated fields change, as the projection derives them from the event, and otherwise nothing changes. |
| `Activation.ActivationService.ResolveHistoryQuery` | vsm/activation/reorientation.py:200-217 | Recording a history query succeeds exactly when admitted and appended; then exactly the stated fields change, as the projection derives them from the event, and otherwise nothing changes. |
| `Activation.ActivationService.VerifyIndexPage` | vsm/activation/reorientation.py:243-311 | Recording a verified index page succeeds exactly when admitted and appended; then exactly the stated fields change, as the projection derives them from the event, and otherwise nothing changes. |
| `Activation.ActivationService.RecordUsage` | vsm/activation/service.py:473-502 | Recording usage succeeds exactly when admitted and appended; then exactly the stated fields change, as the projection derives them from the event, and otherwise nothing changes. |
| `Activation.ActivationService.AssessmentChecks` | vsm/activation/service.py:276-350 | The checks of a submitted assessment, as one condition on the view. |
| `Activation.ActivationService.SubmitAssessment` | vsm/activation/service.py:276-374 | Accepting an assessment succeeds exactly when admitted and appended; then exactly the stated fields change, as the projection derives them from the event, and otherwise nothing changes. |
| `Activation.ActivationService.RequestRevision` | vsm/activation/service.py:376-419 | Requesting a revision succeeds exactly when admitted and appended; then exactly the stated fields change, as the projection derives them from the event, and otherwise nothing changes. |
| `Activation.ActivationService.Approve` | vsm/activation/service.py:421-445 | Approving the activation succeeds exactly when admitted and appended; then exactly the stated fields change, as the projection derives them from the event, and otherwise nothing changes. |
| `KernelService.Kernel.Record` | vsm/kernel/service.py:101-134 | Appends an admitted event with the version the Kernel believes in. |
| `KernelService.Kernel.RegisterNode` | vsm/kernel/service.py:140-163 | Registering a node succeeds exactly when its guards hold and the append is accepted; then exactly the stated fields change to the stated values, as the projection derives them from the event, and otherwise nothing changes. |
| `KernelService.Kernel.CreateWorkItem` | vsm/kernel/service.py:188-247 | Creating a work item succeeds exactly when its guards hold and the append is accepted; then exactly the stated fields change to the stated values, as the projection derives them from the event, and otherwise nothing changes; an existing identity is overwritten. |
| `KernelService.Kernel.AddDependency` | vsm/kernel/service.py:249-295 | Adding a dependency succeeds exactly when its guards hold and the append is accepted; then exactly the stated fields change to the stated values, as the projection derives them from the event, and otherwise nothing changes; the worklist search decides the cycle guard. |
| `KernelService.Kernel.ImportWorkGraph` | vsm/kernel/service.py:297-393 | The first import succeeds exactly when its guards hold and the append is accepted; then exactly the stated fields change to the stated values, as the projection derives them from the event, and otherwise nothing changes; a repeated import of the stored graph is answered without an event and any other is refused. |
| `KernelService.Kernel.DelegateWorkItem` | vsm/kernel/service.py:395-428 | Delegating succeeds exactly when its guards hold and the append is accepted; then exactly the stated fields change to the stated values, as the projection derives them from the event, and otherwise nothing changes. |
| `KernelService.Kernel.ValidateResume` | vsm/kernel/service.py:452-483 | The owner-confirmed resume checks, as one condition. |
| `KernelService.Kernel.PrepareResume` | vsm/kernel/service.py:430-450 | Preparing a resume succeeds exactly when its guards hold and the append is accepted; then exactly the stated fields change to the stated values, as the projection derives them from the event, and otherwise nothing changes. |
| `KernelService.Kernel.CompleteWorkItem` | vsm/kernel/service.py:1190-1240 | Completing succeeds exactly when its guards hold and the append is accepted; then exactly the stated fields change to the stated values, as the projection derives them from the event, and otherwise nothing changes. |
| `KernelService.Kernel.Intervene` | vsm/kernel/service.py:1078-1118 | Intervening succeeds exactly when its guards hold and the append is accepted; then exactly the stated fields change to the stated values, as the projection derives them from the event, and otherwise nothing changes; the two loops pause and revoke exactly what the comprehension says. |
| `KernelService.Kernel.RecordFinding` | vsm/kernel/service.py:1120-1146 | Recording a finding succeeds exactly when its guards hold and the append is accepted; then exactly the stated fields change to the stated values, as the projection derives them from the event, and otherwise nothing changes; an existing identity is overwritten. |
| `KernelService.Kernel.AcceptRisk` | vsm/kernel/service.py:1148-1188 | Accepting a risk succeeds exactly when its guards hold and the append is accepted; then exactly the stated fields change to the stated values, as the projection derives them from the event, and otherwise nothing changes. |
| `KernelService.Kernel.CreateExecution` | vsm/kernel/service.py:485-517 | Creating an execution succeeds exactly when its guards hold and the append is accepted; then exactly the stated fields change to the stated values, as the projection derives them from the event, and otherwise nothing changes. |
| `KernelService.Kernel.ValidMessageIdentity` | vsm/kernel/service.py:551-587 | Sender, recipient and work references of an agent message are known and agree. |
| `KernelService.Kernel.RecordNotification` | vsm/kernel/service.py:519-549 | Delivering a notification succeeds exactly when its guards hold and the append is accepted; then exactly the stated fields change to the stated values, as the projection derives them from the event, and otherwise nothing changes. |
| `KernelService.Kernel.PromoteNotification` | vsm/kernel/service.py:618-670 | A promotion creates the work item and then links it, as two recorded commands; when the first is refused nothing happens. |
| `KernelService.Kernel.RecordNameAssignment` | vsm/kernel/service.py:672-728 | Recording an issued name succeeds exactly when its guards hold and the append is accepted; then exactly the stated fields change to the stated values, as the projection derives them from the event, and otherwise nothing changes. |
| `KernelService.Kernel.RegisterIdentity` | vsm/kernel/service.py:730-770 | Registering an issued identity succeeds exactly when its guards hold and the append is accepted; then exactly the stated fields change to the stated values, as the projection derives them from the event, and otherwise nothing changes. |
| `KernelService.Kernel.SetExecutionState` | vsm/kernel/service.py:772-826 | An execution transition succeeds exactly when its guards hold and the append is accepted; then exactly the stated fields change to the stated values, as the projection derives them from the event, and otherwise nothing changes. |
| `KernelService.Kernel.RecordReceipt` | vsm/kernel/service.py:828-911 | Recording a receipt succeeds exactly when its guards hold and the append is accepted; then exactly the stated fields change to the stated values, as the projection derives them from the event, and otherwise nothing changes; the payload names the execution, its work item, its assignment and its agent. |
| `KernelService.Kernel.HostDisconnected` | vsm/kernel/service.py:1242-1265 | A host disconnect succeeds exactly when its guards hold and the append is accepted; then exactly the stated fields change to the stated values, as the projection derives them from the event, and otherwise nothing changes, under an event without actor. |
| `KernelService.Kernel.GrantCapability` | vsm/kernel/service.py:165-186 | Granting a capability succeeds exactly when its guards hold and the append is accepted; then exactly the stated fields change to the stated values, as the projection derives them from the event, and otherwise nothing changes. |
| `KernelService.Kernel.RegisterReferenceGrant` | vsm/kernel/service.py:1267-1286 | Registering a reference grant succeeds exactly when its guards hold and the append is accepted; then exactly the stated fields change to the stated values, as the projection derives them from the event, and otherwise nothing changes. |
| `KernelService.Kernel.ReserveBudget` | vsm/kernel/service.py:913-934 | Reserving a budget succeeds exactly when its guards hold and the append is accepted; then exactly the stated fields change to the stated values, as the projection derives them from the event, and otherwise nothing changes. |
| `KernelService.Kernel.PlanEffect` | vsm/kernel/service.py:936-965 | Planning an effect succeeds exactly when its guards hold and the append is accepted; then exactly the stated fields change to the stated values, as the projection derives them from the event, and otherwise nothing changes; a known lease identity may be planned again. |
| `KernelService.Kernel.ApproveEffect` | vsm/kernel/service.py:967-991 | Approving an effect succeeds exactly when its guards hold and the append is accepted; then exactly the stated fields change to the stated values, as the projection derives them from the event, and otherwise nothing changes. |
| `KernelService.Kernel.ActivateEffect` | vsm/kernel/service.py:993-1016 | Activating an effect succeeds exactly when its guards hold and the append is accepted; then exactly the stated fields change to the stated values, as the projection derives them from the event, and otherwise nothing changes. |
| `KernelService.Kernel.MarkEffectUnknown` | vsm/kernel/service.py:1018-1039 | Marking an effect result unknown succeeds exactly when its guards hold and the append is accepted; then exactly the stated fields change to the stated values, as the projection derives them from the event, and otherwise nothing changes. |
| `KernelService.Kernel.ReconcileEffect` | vsm/kernel/service.py:1050-1076 | Reconciling an effect succeeds exactly when its guards hold and the append is accepted; then exactly the stated fields change to the stated values, as the projection derives them from the event, and otherwise nothing changes. |
| `KernelService.Kernel.RegisterRoute` | vsm/kernel/service.py:1288-1305 | Registering a route snapshot succeeds exactly when its guards hold and the append is accepted; then exactly the stated fields change to the stated values, as the projection derives them from the event, and otherwise nothing changes. |
| `KernelService.Kernel.ApproveRoute` | vsm/kernel/service.py:1307-1341 | Approving a route snapshot succeeds exactly when its guards hold and the append is accepted; then exactly the stated fields change to the stated values, as the projection derives them from the event, and otherwise nothing changes. |
| `KernelService.Kernel.PublishRoute` | vsm/kernel/service.py:1343-1371 | Publishing a route snapshot succeeds exactly when its guards hold and the append is accepted; then exactly the stated fields change to the stated values, as the projection derives them from the event, and otherwise nothing changes. |
| `KernelService.Kernel.RetireRoute` | vsm/kernel/service.py:1373-1450 | Retiring a route snapshot succeeds exactly when its guards hold and the append is accepted; then exactly the stated fields change to the stated values, as the projection derives them from the event, and otherwise nothing changes. |
| `Graph.SearchReaches` | vsm/kernel/service.py:268-284 | The worklist loop terminates and reports a cycle exactly when the new target already reaches the source. |
| `Graph.AddEdge` | vsm/kernel/service.py:249-295 | Adding an edge keeps the graph acyclic exactly when it was acyclic and the target did not reach the source. |
| `Graph.DisjointUnion` | vsm/kernel/service.py:342-392 | Two graphs on separate items are jointly acyclic exactly when each is. |
| `Graph.FirstItem` | vsm/dispatcher.py:337-393 | In an acyclic graph every non-empty selection has a member without successor in the selection. |
| `WorkRules.AcyclicStep` | vsm/kernel/service.py:249-295 | A command keeps the dependencies acyclic exactly when what it imports is acyclic. |
| `WorkRules.DependenciesAcyclic` | vsm/kernel/service.py:249-393 | In every reachable state the dependencies are acyclic exactly when every imported graph was. |
| `WorkRules.BlockersAgree` | vsm/kernel/service.py:1120-1188 | With fitting imports, proposed, ready and completed items have no blockers and blocked ones have some, in every reachable state. |
| `WorkRules.BlockersAgreeThroughout` | vsm/kernel/service.py:342-392 | Blockers and states agree at every point of a run exactly when the imported items agreed. |
| `WorkRules.CompletionIsGated` | vsm/kernel/service.py:1190-1240 | Every completed item that was not imported as completed carries evidence that satisfies the six gates. |
| `WorkRules.CompletedAfterDependencies` | vsm/kernel/service.py:1190-1240 | When a completion was recorded, the events before it had completed every dependency and left the item unblocked. |
| `WorkRules.ImportedOnce` | vsm/kernel/service.py:297-341 | The work graph is imported at most once, and exactly when the activation names its snapshot. |
| `WorkRules.DelegateIsLast` | vsm/kernel/service.py:395-428 | In every reachable state an item's delegate is the node that its last delegation named, or its creation or import if there was none since. |
| `Findings.BlocksThroughoutIff` | vsm/kernel/service.py:1120-1203 | A severe finding is among the blockers of its item from its recording on, and stays so over a stretch of a run exactly when in it the item is not created anew, the risk is not accepted, and the finding is not recorded anew as advisory or on another item; while it blocks, the item is not completed. |
| `Findings.StrandedThroughoutIff` | vsm/kernel/service.py:1120-1203 | A blocking finding that is recorded anew on another item stays among the blockers of the first, which is not completed, over a stretch exactly when in it the item is not created anew and the finding not recorded on it again. |
| `Findings.StrandedReached` | vsm/kernel/service.py:1120-1146 | A reachable run in which a finding blocks one item and is then recorded anew on another. |
| `Executions.ExecutionsMoveForward` | vsm/kernel/service.py:772-911 | Between any two points of a run every execution stays, keeps its identity and name, never returns to requested, and is fixed once terminal. |
| `Executions.OneReceiptOneName` | vsm/kernel/service.py:672-728 | An execution is created once and gets at most one receipt and at most one name. |
| `Leases.LeaseRules` | vsm/kernel/service.py:936-1016 | In every reachable state effect keys are distinct and every lease that was activated has an approval. |
| `Leases.LeaseLife` | vsm/kernel/service.py:1018-1076 | Between any two points of a run in which a lease is not planned again, its terms stay, succeeded, failed and revoked are final, and unknown is left only through a recorded reconciliation. |
| `Leases.FinalStaysIff` | vsm/kernel/service.py:936-1076 | A lease that is revoked, succeeded or failed at a point of a run stays so over a stretch exactly when it is not planned again in it. |
| `Leases.UnknownStaysIff` | vsm/kernel/service.py:1018-1076 | An unknown result stays unknown over a stretch of a run exactly when it is neither reconciled nor planned again in it. |
| `Leases.FinalThroughoutIff` | vsm/kernel/service.py:949-965 | Final results are final over a whole run exactly when every planning was of an identity that had no final lease at that moment, which a caller sees in the live leases. |
| `Leases.RevocationUndone` | vsm/kernel/service.py:936-965 | A reachable run in which an intervention revokes a lease and planning it again brings it back. |
| `Leases.InterventionFrame` | vsm/kernel/service.py:1078-1118 | An intervention changes the item, its running executions and its planned or active leases, and nothing else. |
| `ActivationRules.RestartEnabled` | vsm/activation/service.py:151-190 | While reorienting, starting another attempt is admitted exactly when none is running. |
| `ActivationRules.OneOfThree` | vsm/activation/service.py:151-246 | While reorienting, exactly one of a running attempt, a recorded error and a requested revision holds. |
| `ActivationRules.ActivatedIsFinal` | vsm/activation/service.py:421-452 | Between any two points of a run an activated service stays exactly as it was activated, up to its version. |
| `ActivationRules.TokensAreSums` | vsm/activation/service.py:473-502 | The token counters are the sums over the usage events of the ledger and the call counter is their number. |
| `ActivationRules.QueriesAndApproval` | vsm/activation/reorientation.py:200-217 | The citable event ids are exactly those of recorded history queries, and the service is activated exactly when an approval is recorded. |
| `ActivationRules.CitationsNameEarlierQueries` | vsm/activation/service.py:342-360 | Every citation of an accepted assessment names a history query recorded before it. |
| `ActivationRules.WorkFollowsApproval` | vsm/activation/service.py:447-452 | Every created execution and every planned, approved or activated effect comes after a recorded activation approval. |
| `Routes.AtMostOnePublished` | vsm/kernel/service.py:1343-1371 | In every reachable state at most one snapshot per route key is published. |
| `Routes.ReplacementIsOwnerApproved` | vsm/kernel/service.py:1427-1450 | A snapshot that replaces a published one is never itself published: it is owner-approved. |
| `Routes.IndexPublished` | vsm/dispatcher.py:157-165 | The indexing loop succeeds exactly when no route key comes twice, and then maps each key to its snapshot. |
| `Routes.NoDuplicateRoute` | vsm/dispatcher.py:157-165 | In every reachable state the duplicate-route error of the dispatcher cannot fire, in any listing order. |
| `Routes.ApprovalsInOrder` | vsm/kernel/service.py:1288-1425 | The events of each snapshot end with its registration, S3* approval, owner approval, publication and retirement, in that order as far as its state says, and its approval references point at them. |
| `Stories.EventsOnOwnStreams` | vsm/audit_trace.py:153-161 | Notifications, promotions, name assignments and receipts are recorded on the stream of their subject. |
| `Stories.AllNotificationStories` | vsm/kernel/service.py:519-670 | A known notification has one delivery; one delivered unpromoted has at most one promotion, recorded exactly when it shows a work item. |
| `Stories.AllExecutionStories` | vsm/kernel/service.py:672-911 | An execution has at most one recorded name and receipt, and the receipt carries the name exactly when the name was recorded first. |
| `Audit.AuditTraceService.Events` | vsm/audit_trace.py:103-120 | Paging through the ledger with any page size yields the whole list. |
| `Audit.AuditTraceService.OfStream` | vsm/audit_trace.py:122-151 | Paging through a stream with any page size yields the filter of the whole list. |
| `Audit.AuditTraceService.TraceNotification` | vsm/audit_trace.py:284-291 | The fast notification trace computes the stream-based answer. |
| `Audit.AuditTraceService.TraceNotificationCanonical` | vsm/audit_trace.py:293-301 | The canonical notification trace computes the whole-ledger answer. |
| `Audit.AuditTraceService.TraceExecution` | vsm/audit_trace.py:437-472 | The fast execution trace computes the stream-based answer. |
| `Audit.AuditTraceService.TraceExecutionCanonical` | vsm/audit_trace.py:474-477 | The canonical execution trace computes the whole-ledger answer. |
| `Audit.FastNotificationIsCanonical` | vsm/audit_trace.py:284-301 | In every reachable state both notification traces are equal or both refuse. |
| `Audit.FastExecutionIsCanonical` | vsm/audit_trace.py:437-477 | In every reachable state both execution traces are equal or both refuse. |
| `Audit.NotificationVerified` | vsm/audit_trace.py:193-248 | A known notification traces as verified exactly when it was delivered unpromoted; the trace shows one delivery, and one promotion exactly when there is a work item. |
| `Audit.ExecutionVerified` | vsm/audit_trace.py:317-371 | An execution traces as verified exactly when its name assignment precedes its receipt in the ledger (with non-empty identities). |
| `Audit.ReceiptCompletesTrace` | vsm/audit_trace.py:317-371 | As soon as the receipt of an execution with a recorded name is recorded, its trace is verified. |
| `Audit.TracesStayVerified` | vsm/audit_trace.py:437-477 | No later command can break a verified execution trace. |
| `Audit.ExecutionTraceShows` | vsm/audit_trace.py:317-435 | Whenever an execution traces as verified, the trace refers to the recorded naming and, after it, the recorded receipt, by cursor, identity, stream and type, and shows the name, receipt, status, session and work item of their payloads. |
| `Audit.TracesStayTheSame` | vsm/audit_trace.py:317-435 | Later commands leave a verified execution trace as it is, but for the state of the work item. |
| `Audit.NotificationTraceShows` | vsm/audit_trace.py:193-282 | Whenever a notification traces as verified, the trace refers to the recorded delivery and, exactly when there is a work item, the recorded promotion, and shows the message, recipient and work item of their payloads. |
| `Deltas.TypeCounts` | vsm/dispatcher.py:575-579 | The type counts sum to the number of events, and each is the number of events of its type. |
| `Deltas.DeltaMeans` | vsm/dispatcher.py:552-581 | A delta gives the ends and the length of its interval, how many of its events have each type, and exactly the streams with an event in it. |
| `Deltas.InterfaceEventDelta` | vsm/interface/service.py:753-782 | The interface loop equals the direct fold over (after, through], and refuses intervals that run backwards or past the ledger. |
| `Deltas.ReorientationEventDelta` | vsm/activation/reorientation.py:579-601 | The reorientation loop equals the direct fold over (after, through], except that it accepts a backwards interval as empty. |
| `Deltas.CountsSumToInterval` | vsm/activation/reorientation.py:579-601 | Answered counts sum to through minus after; for the reorientation loop exactly when the interval does not run backwards. |
| `Deltas.DeltaDispatcher.TakeDelta` | vsm/dispatcher.py:552-581 | Each dispatcher delta is the fold from the last cursor to the end of the ledger, and extends the covered prefix. |
| `Deltas.CoversGrow` | vsm/dispatcher.py:552-581 | Events appended later do not change what was handed out. |
| `Deltas.EachEventOnce` | vsm/dispatcher.py:552-581 | Every event after startup is in exactly one of the deltas taken. |
| `Deltas.ReachesCallIff` | vsm/dispatcher.py:279-296 | An event reaches a call exactly when the one delta that holds it was taken by a batch that started something; no later delta brings it back. |
| `Deltas.DeltasConserve` | vsm/dispatcher.py:552-581 | All deltas together count exactly the events since startup. |
| `Dispatch.PreflightReady` | vsm/dispatcher.py:309-393 | The preflight passes exactly when every selected item passes and one can start; otherwise it answers the first refusal in order. |
| `Dispatch.ResumeNeverDeadlocks` | vsm/dispatcher.py:337-393 | Over acyclic dependencies, if every selected item passes its checks some selected item has all dependencies completed. |
| `Dispatch.ReachableResumeNeverDeadlocks` | vsm/dispatcher.py:337-393 | In every reachable state with acyclic imports the refusal for want of a startable item is unreachable. |
| `Dispatch.NothingStartableIff` | vsm/dispatcher.py:370-393 | Without acyclicity the refusal is the answer exactly when every selected item waits for another selected item. |
| `Dispatch.EligibleItems` | vsm/dispatcher.py:166-194 | The dispatch loop selects exactly the ready, idle, allowed items with completed dependencies, each once. |
| `Dispatch.PlanBatch` | vsm/dispatcher.py:195-219 | Planning succeeds exactly when bindings and published routes are unique and every eligible item has a bound node and a current route that picks an acceptable candidate; each plan holds that binding and candidate. |
| `DispatchBatch.StartItem` | vsm/dispatcher.py:221-259 | An item starts exactly when a name can be issued, if names are issued, and both its creation and its naming are accepted in turn; the state is exactly that after the commands accepted so far. |
| `DispatchBatch.ItemFitsIff` | vsm/dispatcher.py:221-259 | In a reachable state both commands of an item are accepted exactly when its fresh identities and event keys are unused, a name can be issued and its streams are not the activation service's. |
| `DispatchBatch.StartBatch` | vsm/dispatcher.py:220-272 | Starting a batch creates the named, requested executions of its items in order, stops exactly at the first item that does not fit when its turn comes, and changes no other execution; the item that stopped it leaves at most an execution without a recorded name. |
| `DispatchBatch.BatchFitsIff` | vsm/dispatcher.py:220-272 | All items of a batch fit in turn exactly when each fits at the call and no two share an identity or an event key. |
| `DispatchBatch.CoveredInRuns` | vsm/agent_naming.py:258-464 | In every run of a Kernel with its registry, over restarts as well, the registry knows all recorded names as used, as the exact stop of a batch assumes. |
| `DispatchBatch.OneOpenExecution` | vsm/dispatcher.py:166-272 | An item that was idle before a complete batch has exactly one requested or running execution after it, the one that the batch created. |
| `DispatchBatch.DispatchReady` | vsm/dispatcher.py:141-303 | A dispatch selects exactly the eligible items, is refused before anything is created exactly when the plane is not activated or some item cannot be planned, and starts everything exactly when the batch fits; each started item has one open execution, on its delegate, for the pilot and host bound to that node, with the candidate routing picked from the current published route. |
| `DispatchBatch.BoundHostPauses` | vsm/kernel/service.py:1242-1265 | An execution that a dispatch created and that is active later is paused by a disconnected host exactly when it is the host bound to the item's delegate at the dispatch. |
| `DispatchWitness.HalfwayReached` | vsm/dispatcher.py:246-250 | A reachable state in which two items are eligible and planned, and a dispatch under a key used before starts the first and stops before the second. |
| `Dispatch.DispatchMakesProgress` | vsm/dispatcher.py:166-194 | Over acyclic imports, if all open items are ready, idle and allowed and there are some, one is eligible. |
| `Naming.AgentNameRegistry.FromRows` | vsm/agent_naming.py:152-161 | A registry needs at least one row and starts with nothing issued. |
| `Naming.AgentNameRegistry.NextName` | vsm/agent_naming.py:437-464 | Takes the first free base name in turn; numbers a base only when every base of the pool is taken, with the least free suffix, at most the number of used names plus one. |
| `Naming.NameComesFromRow` | vsm/agent_naming.py:437-464 | An issued name is the chosen writing of a row of its scale that is neither disliked nor the owner's seat, with a number from the second on. |
| `Naming.GoesOn` | vsm/agent_naming.py:437-464 | The search goes on after the row that was handed out last, around the end. |
| `Naming.AgentNameRegistry.NextSuffix` | vsm/agent_naming.py:459-462 | The suffix loop terminates with the least free suffix. |
| `Naming.AgentNameRegistry.Allocate` | vsm/agent_naming.py:327-378 | Issues a free name of the pool and keeps all names distinct and equal to the used set; refuses exactly an unknown scale, an empty pool or a known identity. |
| `Naming.AgentNameRegistry.AllocateOutOfPipeline` | vsm/agent_naming.py:380-435 | The same for identities without a work item, which must be new among both kinds. |
| `Naming.AgentNameRegistry.Restore` | vsm/agent_naming.py:258-289 | Restoring assignments equals the fold that stops at the first collision, and keeps names distinct. |
| `Naming.AgentNameRegistry.RestoreIdentities` | vsm/agent_naming.py:291-325 | The same for registrations. |
| `Naming.NumberedInjective` | vsm/agent_naming.py:74-82 | Different suffixes give different names. |
| `Naming.SuffixBound` | vsm/agent_naming.py:459-462 | At most as many consecutive numbers are taken as names are used. |
| `Naming.RestoreNeverFails` | vsm/agent_naming.py:258-289 | Restoring assignments that another registry with the same rows issued never raises and restores exactly them. |
| `Naming.RestartRestores` | vsm/agent_naming.py:258-325 | A restarted registry restores the persisted part of what its predecessor issued, in any listing, and ends with exactly that part. |
| `Naming.NamingNeverFails` | vsm/agent_naming.py:258-464 | Over any history of issuing, recording and restarting, no restore raises, recorded names are never lost, and names stay distinct and equal to the used set. |
| `Naming.RestoreIff` | vsm/agent_naming.py:258-325 | Restoring from scratch what was recorded succeeds, in any listing, exactly when the recorded names are distinct and still have their rows, and then the registry holds exactly what was recorded, with exactly its names in use. |
| `Identities.RestoringNeverRaises` | vsm/runtime.py:275-280 | Over any run of issued names, Kernel commands and restarts with the same rows, restoring the registry from the Kernel's recorded names never raises, and every recorded name was issued by the running registry. |
| `Identities.RestartHolds` | vsm/runtime.py:275-280 | After a restart in such a run the registry is exactly what the Kernel recorded. |
| `Receipts.ReceiptStore.constructor` | scripts/production_pilot_host.py:397-443 | Opening the store after a crash gives every row in progress the status unknown and its error, and keeps every other row. |
| `Receipts.ReceiptStore.Begin` | scripts/production_pilot_host.py:448-521 | Whichever matching row the lookup returns, the answer is the earlier receipt of the same request, a new row, or a conflict. |
| `Receipts.ReceiptStore.Finish` | scripts/production_pilot_host.py:523-564 | Completes exactly a receipt in progress. |
| `Receipts.PilotHost.Execute` | scripts/production_pilot_host.py:2418-2493 | Calls the provider exactly for a new receipt and records whatever came of it. |
| `Receipts.AnyMatchDecidesAlike` | scripts/production_pilot_host.py:460-486 | When the two-column lookup matches two rows, either one leads to the same decision. |
| `Receipts.HostKeeps` | scripts/production_pilot_host.py:397-564 | Posts, provider calls, completions and restarts keep the table and change no final row. |
| `Receipts.RowHistory` | scripts/production_pilot_host.py:397-564 | Over every run a row was inserted by a post that matched none; it succeeded or failed only because a completion recorded the outcome of a call made for it, and it is unknown exactly when a restart met it in progress. |
| `Receipts.AtMostOneCall` | scripts/production_pilot_host.py:2418-2493 | Over any interleaving of posts, calls, completions, crashes and retries the provider is called at most once per receipt id and per idempotency key. |
| `Receipts.FinalReceiptsStay` | scripts/production_pilot_host.py:534-564 | A succeeded, failed or unknown receipt never changes again. |
| `Receipts.ExecuteIsThreeSteps` | scripts/production_pilot_host.py:2418-2493 | The endpoint's straight run is the protocol's post, provider call and completion. |
| `CrossProcess.PostReceipt` | vsm/pilot/production_host.py:362-394 | Classifies an exchange: unreachable exactly when POST and GET are lost, succeeded exactly for a consistent, matching, succeeded receipt, and so on for each outcome. |
| `CrossProcess.ExecuteWork` | vsm/pilot/production_host.py:256-303 | The same for a work request, except that a succeeded receipt whose result does not validate is not foreseen. |
| `CrossProcess.CompletedExecution` | vsm/dispatcher.py:395-550 | Completing a requested execution records exactly one report: the usable receipt with its fields, an unknown outcome when both messages were lost, or a failure of its own; the execution is paused for reconciliation exactly when no answer came or the host does not know the outcome, succeeded exactly for a valid success, and failed otherwise. |
| `CrossProcess.CompleteExecution` | vsm/dispatcher.py:395-550 | A call and what is recorded of it, with answers that the host put on the network, is exactly one step of the combined system, and leaves the report and the execution that its messages call for. |
| `CrossProcess.RecordedSuccessIsHostSuccess` | vsm/dispatcher.py:526-550 | At every point of every run with lost and delayed answers, crashes and retries, each success in the ledger is a succeeded receipt of the host with the same id, key, request, result and usage. |
| `CrossProcess.CrossKeeps` | vsm/pilot/production_host.py:468-498 | Every step of the combined system keeps answers true and recorded successes in agreement with the host. |
| `CrossWitness.SuccessRecordedIff` | vsm/dispatcher.py:395-550 | Over any later run in which the host ends the request with a success that answers it, exactly one receipt is ever recorded for the execution, and it is a success exactly when the call was given a final answer for the request whose result validates. |
| `CrossWitness.SuccessUnrecorded` | vsm/dispatcher.py:395-497 | A run in which the GET finds the receipt in progress, the Kernel records the execution as failed, and the host then succeeds. |
| `CrossWitness.InvalidResultUnrecorded` | vsm/pilot/production_host.py:299-303 | A run in which the host succeeds, the client gets that answer, and the Kernel records the execution as failed because the result does not validate. |
| `CrossWitness.OutcomesStay` | vsm/kernel/service.py:772-911 | Over any further run of the combined system terminal executions and final receipts never change, so such a disagreement is permanent. |
| `Lethe.LetheClient.Append` | vsm/lethe/client.py:65-131 | Under every fate of POST and GET the client answers and the remote list changes as specified by a scan of the list. |
| `Lethe.LetheClient.ReconcileEvent` | vsm/lethe/client.py:133-165 | A GET by event identity answers the stored cursor exactly when the stored intent is the same. |
| `Lethe.AnsweredIsStored` | vsm/lethe/client.py:65-165 | Whenever an append answers with a cursor, the event is stored exactly once there with the same intent and the answered version. |
| `Lethe.AppendedExactlyOnce` | vsm/lethe/client.py:65-165 | That stays so over any later run of calls and late arrivals. |
| `Lethe.RetryAgrees` | vsm/lethe/client.py:65-165 | A retry of an answered append stores nothing, and if it is answered it is answered with the same cursor and version. |
| `Lethe.NeverStoredTwice` | vsm/lethe/client.py:65-165 | Over any run from an empty lake no event identity and no idempotency key is stored twice. |
| `Lethe.StaleCallNeverAppends` | vsm/lethe/client.py:122-126 | A writer with a stale stream version never appends. |
| `Lethe.RefusedYetStoredIff` | vsm/lethe/client.py:52-63 | A new event is stored although the append is answered with a definite refusal exactly when a server error hid the append or the lookup after a missing response failed. |
| `Remote.AnswerKeepsLawIff` | vsm/kernel/service.py:113-134 | For any command, an answered append leaves the live views equal to the replay of the remote ledger exactly when, before it, that ledger held nothing they had not seen, or just this command's event. |
| `Remote.LawAtAnswersIff` | vsm/kernel/service.py:113-134 | Over every run with whatever commands, losses, delays, errors and late arrivals, live equals replay after every answer exactly when no answered command overtook a stored one that the live views had not seen; as long as that is so, at every point live equals replay exactly when the remote ledger holds just what the live views reflect. |
| `RemoteRetry.OnlyRetryRestores` | vsm/kernel/service.py:132-134 | While the event of an unanswered command is stored unseen, an answer to whatever command restores live equals replay exactly when it answers a retry of that command. |
| `RemoteRetry.RetryAnsweredIff` | vsm/lethe/client.py:106-165 | A retry of a stored command by the same call is answered exactly when its messages find the event and the command writes no clock reading into its event or reads the very same one; then live equals replay again, and otherwise nothing changes. |
| `RemoteRetry.RetryingFirstSuffices` | vsm/lethe/client.py:65-165 | A caller that retries an unanswered command before any other never overtakes: at every point the remote ledger replays to the live views or to those after the one command that waits. |
| `RemoteRetry.StuckForGood` | vsm/kernel/service.py:967-991 | A stored approval whose answer was lost is never answered once the clock has moved on: over any run of retries of the call the live views stay without it. |
| `RemoteWitness.ApprovalLost` | vsm/activation/service.py:421-445 | A run in which the stored activation approval lost its answer: the ledger replays to an activated plane while the live one waits for its owner. |
| `RemoteWitness.OvertakingLags` | vsm/kernel/service.py:113-134 | A run in which another command overtakes an unanswered one that was stored, after which live differs from replay and nothing waits. |
| `InterfaceActions.VisitAcceptsAcyclic` | vsm/interface/service.py:456-465 | The recursive check terminates and accepts exactly the acyclic graphs. |
| `InterfaceActions.ValidateActions` | vsm/interface/service.py:303-465 | The validation accepts exactly the responses whose actions are distinct, create new identities, pass their checks against the projected work and decisions in turn, and project an acyclic graph. |
| `InterfaceActions.ProjectionIsAccumulation` | vsm/interface/service.py:317-379 | When no identity is created twice, the projected dependencies are the Kernel's dependencies after all actions. |
| `InterfaceActions.AllAddableIff` | vsm/kernel/service.py:249-295 | Edges added in order to an acyclic graph are all accepted exactly when the final graph is acyclic. |
| `InterfaceActions.ValidationPredictsKernel` | vsm/interface/service.py:311-465 | For a validated response the Kernel refuses none of its dependencies for a cycle exactly when the accumulated graph is acyclic, which distinct created identities guarantee. |
| `InterfaceActions.RepeatedCreationMisleads` | vsm/interface/service.py:350-379 | For any live plane with acyclic dependencies and any two new items, a response that creates the first twice passes the validation, although the Kernel refuses its last dependency for a cycle and none before. |
| `InterfaceApply.AddDependencies` | vsm/interface/service.py:793-803 | Adds the dependencies of a creation in order up to the first that the Kernel refuses, in exactly the state of the ones before it. |
| `InterfaceApply.ApplyAction` | vsm/interface/service.py:788-840 | Sends the commands of one action in order up to the first that the Kernel refuses. |
| `InterfaceApply.ApplyActions` | vsm/interface/service.py:784-850 | Completes exactly when every command is accepted in turn and every selection fits in turn, and then the state is that of running them all; otherwise it stops at the first that is refused, with everything before it done. |
| `InterfaceApply.SelectionsPass` | vsm/interface/service.py:841-846 | In a validated response a pilot selection always fits when its turn comes. |
| `InterfaceApply.DependencyRefusedIff` | vsm/kernel/service.py:249-295 | For a validated response that accumulates to an acyclic graph, a dependency is refused exactly when it exists already or its event key was used or its stream is the activation service's. |
| `InterfaceApply.StopReason` | vsm/interface/service.py:793-803 | When an application of such a response stops at a dependency, that is the reason: never a cycle, a missing item or a self-dependency. |
| `InterfaceApply.FirstRefusedIff` | vsm/interface/service.py:784-850 | For a validated response, the first command of an action is refused in its turn exactly for what only the live plane decides (another integration owner of the parent, an item completed in between, an expired lease or a taken effect key, an open dependency), a used key, or a stream of the activation service. |
| `InterfaceApply.FirstStopReason` | vsm/interface/service.py:784-850 | When an application stops at the first command of an action, that is the reason. |
| `InterfaceApply.RepeatedDependencyStops` | vsm/interface/service.py:793-803 | A dependency that is listed twice is refused when its second listing is reached. |
| `InterfaceApply.TwiceListedStops` | vsm/interface/service.py:350-379 | In every reachable state with acyclic dependencies, a response that creates a new item with one dependency listed twice passes the validation and is never completed: the second listing is refused. |
| `InterfaceApply.TwiceListedReached` | vsm/interface/service.py:793-803 | On a reached activated plane such a response is validated, the item is created, its first dependency is added, and the second is refused. |
| `InterfaceApply.CompletionNeedsAcyclic` | vsm/kernel/service.py:249-295 | From acyclic dependencies the Kernel completes a response only if the accumulated graph is acyclic. |
| `InterfaceApply.RepeatedCreationStops` | vsm/interface/service.py:350-379 | In every reachable state with acyclic dependencies the response that repeats a creation passes the validation and is never completed by the Kernel. |
| `InterfaceApply.RepeatedCreationReached` | vsm/interface/service.py:177-190 | Such a state is reached on an activated plane. |

## Left out

- InterfaceService state (conversations, sessions, decisions, commitments): its failure path after a recorded response and its collision check after recording are not mirrored by the handlers, so it is outside the replay law; only validation, application of actions and event deltas are modelled.
- Owner bootstrap, routing evidence and token laboratory streams with their handlers: field checks without interaction with the modelled state; `Views.KnownVersion` looks at the Kernel's and the activation service's versions.
- External `history.*` events and legacy flat payloads in the projection: compatibility branches; the model is of ledgers written by the Kernel and the activation service.
- `AuditTraceService.trace_reply`: it reads supplemental records from outside the ledger; cancellation of a read is not modelled either.
- Thread pool, submission of calls and the routing choice of a dispatch: candidate selection, model scale and name column are parameters of `Dispatch`.
- `scan_session_index`: that the index was listed to its end is an input of an assessment; which history reader answered is not modelled.
- Provider adapters, prompt text, process and filesystem mechanics, authentication, preflight gate, environment contracts and failover: message loss, delay and crashes are modelled as steps.
- Model scale and provider family of a candidate (`_scale_for`, `_name_column`): string tests whose outcome is an input of an allocation.
- CSV reading of the name table: rows are given.
- Evaluation order of refusals: commands answer whether they were refused, and which fault only where callers distinguish it (append outcomes, preflight, receipts, reconciliation).
- Consistency.LiveEqualsReplay: covers the Kernel and the activation service, not the interface, owner bootstrap, routing evidence and token laboratory services.
- Projection.OperationalProjection.ApplyEvent: the versions of the interface, owner bootstrap, routing evidence and token laboratory services are not consulted, because their streams are not part of the model.
- Runtime.Bootstrap: covers the rebuild, the registry restore and the interruption; configuration checks, the active-route check and the wiring of the other services are not part of the model.
- RemoteRetry.RetryingFirstSuffices: names one way to keep the law; for every other run `Remote.LawAtAnswersIff` says exactly when the law holds.
- Status codes of the remote ledger: a response is an answer, a conflict, another error or missing; a lookup is an answer, not found, another error or missing.
- Projection.OperationalProjection.Rebuild: a raising handler leaves the views untouched, whereas the source may have changed some dictionary before it raises; reachable ledgers never make a handler raise.
- CrossProcess.RecordedSuccessIsHostSuccess: is one direction; `CrossWitness.SuccessRecordedIff` says exactly when a success of the host is recorded as one.
