# GovernAI runtime, modelled and proved in Dafny

GovernAI runs typed workflows: steps that execute a tool or an agent, approval gates, interrupts that
ask a caller a question, routing between steps, checkpoints, an audit trail, and stores that keep all of
it. This project models the governed runtime and the protocols it relies on, and proves what they
guarantee over every run, every interleaving and every input.

`dafny verify dfyconfig.toml` checks the whole project.

## How it is laid out

- `Prelude`, `Values`, `Sequences`: option and result types, JSON-like payloads, lists of ids.
- `Secrets`: replacing secrets by a marker, as a string problem.
- `Workflows`, `FlowCompiler`, `Containment`: steps, transitions, the definition-time graph check, next-step
  resolution; flow configs, their validation and their compilation to a class and an instance of it, with
  the registries and the containment check the instance goes through. `Namespaces`: what a class namespace
  declares.
- `RunStates`, `RunStore`: the run state record and the in-memory run store. `RedisKeys`,
  `RedisRunStore`, `StoreRefinement`, `RedisCommits`: the Redis run store over one database, its retry
  loop, its refinement of the in-memory store, and the interleavings of any number of clients. `StoreLaws`:
  the in-memory store told by what is read before and after each call.
- `Fencing`: any number of runtimes with private caches over one in-memory store.
- `Interrupts`, `InterruptManager`, `RedisInterrupts` (with `InterruptRefinement`): interrupt requests,
  the manager, and the Redis store whose index goes stale and heals. `DeskLaws`: every call on the manager
  told by looking requests up before and after it.
- `Lifecycle`: the life of one run as functions on its part of the runtime (cached state, stored
  snapshot, checkpoints, interrupt requests, audit trail). What executors, policies and the clock do is
  a parameter of every step, so a statement about all runs is a statement about all their behaviours.
  What other runs of the runtime do to a run is one more step: they draw uuids; and so are the ways a
  caller lists, looks at, sweeps or clears interrupt requests, and the end of the runtime. `LifecycleInvariants`
  proves what each operation keeps; `LifecycleResults` states what therefore holds of every run;
  `Acyclic`, `StepEffects`, `PauseTransparency`, `PauseLimits` and `NamelessStep` build on it. `Reloading`
  proves that nothing a run does depends on events emitted before; `OutdatedAnswers` is about an answer
  given through a runtime whose copy of the run is out of date.
- `Decisions`, `Accounts`, `Reports`: the same operations from the outside. `Decisions` says what a turn and a
  resume decide, in terms of the step, the policy, the executor and the answer alone; `Accounts` says of whole
  runs which labels begin executions, grant approvals, take answers and fail a run; `Reports` gives the audit
  events of every turn and resume in their order.
- `LocalRuntime`: the runtime object itself, with its caches, its store, its manager and its trails
  updated in place, over stores that are empty or that earlier runtimes have used. Each method is proved
  to do to the run it touches what `Lifecycle` says, and to leave every other run alone.
  `RuntimeHistories` closes the circle: whatever sequence of starts, resumes, restores, loads, looks at its
  interrupts and restarts a runtime goes through, each of its runs is one that `LifecycleResults` speaks of, and the checkpoints of
  all of them are a forest.
- `RemoteAgent`: the turn protocol between the runtime and a sandboxed agent, against local execution.
  `AgentExits`: how an agent's execution ends on either side, told from the calls that were executed.
- `Reducers` (with `ChannelUpdates`): the five channel reducers, their names, and the updates of a run.

Uuids are texts of growing length without a colon, so each is new. Times are integers, one per call.
A failed step that the source raises to its caller is a phase of the run, not a precondition: `Idle` is a
return or a raise with the run at rest, `Crashed` an exception, or the end of the runtime, that leaves the
run RUNNING for good; what such an abandoned run did before still meets the results that speak of the past.

## What the proofs say about the code

- A gated step is executed at most as often as it was granted, plus once if the run was restored from a
  checkpoint that still holds the step's token: the checkpoint after an execution is written before the
  token is removed (`StepEffects.CheckpointKeepsToken`, `StepEffects.RestoredTokenExecutes`).
- What a run did is accounted for label by label: executions begin exactly in the turns that take up a step
  supplied with its artifacts, permitted and not denied; approvals are granted exactly by the calls that
  approve a run at rest that waits for one (`Accounts.EverythingAccounted`); and a run fails exactly by a
  rejection, a denial, a failed executor, a handoff that is not allowed or a target that is not declared, with
  the reason that came with it (`Accounts.FailuresExplained`, `Accounts.RejectedForGood`).
- A step named "" is executed again after its interrupt is answered, because the saved continuation is
  recognised by the truth of its step name (`NamelessStep.RepeatsAfterAnswer`). Every run of a class is a
  walk along declared transitions, and without a declared cycle executes no step twice, exactly when no
  step is named "", or the pending limit is zero, or that step declares itself as a target
  (`NamelessStep.WalksExactly`, `NamelessStep.RepeatsExactly`); and a class of one such step that always
  asks never completes, though it does without the interrupt (`NamelessStep.NamelessPausesForever`).
- In a class without a step named "" every executor is transparent to pauses exactly when interrupts are
  allowed at all or no run of the class completes anyway (`PauseLimits.TransparentExactly`); and wherever a
  run completes through a step named "", or through any step under limit zero, some executor is not
  (`PauseLimits.UnsafeNotTransparent`).
- An answer given through a runtime with an outdated copy of the run takes the live request away before the
  put is refused, so that the run waits for good, exactly when the copy waits for an interrupt itself and the
  answer names that request and the run's epoch (`OutdatedAnswers.OutdatedAnswerExactly`,
  `OutdatedAnswers.MuteForGood`).
- A run that an exception or a restart has caught in the loop stays RUNNING: no resume sets it going again,
  and only its checkpoints can be restored (`LifecycleResults.AbandonedForGood`).
- A tool whose version is not the default one is registered twice, which raises, when two steps of a class
  use it (`Containment.VersionedToolTwice`).
- A valid config with a step named "entry_step" does not compile to the same steps; one with a step named
  "steps" or "_register_step_executors" makes a class that cannot be instantiated; so do names the
  interpreter's own class protocol reads, which are a parameter. With executors that the registries and
  the containment rules take, every other valid, resolved, non-empty config compiles
  (`FlowCompiler.Compile`).
- Across a Redis retry the first committer does not win: a failed attempt leaves the advanced epoch in the
  caller's state, so up to three newer commits can be overwritten; by a caller whose copy was not ahead of
  the store, exactly as many as the attempts it lost (`RedisRunStore.RetryOverwritesNewer`,
  `RedisCommits.OverwrittenExactly`).
- A runtime that has lost one resume of a run keeps its outdated copy in the cache and never gets to
  execute that run again (`Fencing.LoserNeverExecutes`).
- Redaction can leave a secret behind when the secret overlaps the marker. For one secret the condition
  is exact (`Secrets.SingleSecretExact`).
- A remote turn restarts the handler and gives its first call the latest result, whichever call that
  result was for (`RemoteAgent.RemoteReplays`). So a handler that goes on to a different tool has both
  tools executed and then fails, whatever it does locally (`RemoteAgent.TwoCallsDiverge`,
  `RemoteAgent.SecondCallExactly`), and one that calls the same tool again loses its first result
  (`RemoteAgent.SameToolReplays`). A payload that is not a dictionary reaches the tool wrapped
  (`RemoteAgent.RemoteAgreesWithLocal`).
- Writing a checkpoint under an id its thread already lists makes Redis list it twice
  (`StoreRefinement.RepeatedIdDiffers`). Saving a swept interrupt again before its run is listed changes
  the next listing in Redis exactly when a request listed after it is still held
  (`InterruptRefinement.StaleSaveExactly`). A run id can get other replies from Redis exactly when
  ":request:" occurs in the id with a colon added (`InterruptRefinement.CleanExactly`): its epoch then
  overwrites a request of the run named by what comes before.

## Model

| member | source | states |
|---|---|---|
| LifecycleInvariants.RunWorks | governai/runtime/local.py:172-698 | Whatever turns the environment takes, however the run is resumed, its interrupts listed, looked at, swept or cleared, however many uuids other runs of the runtime draw, and wherever the runtime ends, the whole run invariant holds at every point; of an abandoned run, everything that speaks of what it did before. |
| LifecycleInvariants.IterateWorks | governai/runtime/local.py:453-698 | One loop iteration keeps the run invariant; an exception escapes it exactly when a required artifact is missing, a reducer raises, or an interrupt is refused under limit zero. Unknown steps and refused puts are not among the reasons. |
| LifecycleInvariants.ResumeWorks | governai/runtime/local.py:245-451 | Any resume keeps the run invariant; an exception abandons the run exactly when an answer to its live request, under its epoch, meets a saved transition that no longer routes. |
| LifecycleInvariants.BeginWorks | governai/runtime/local.py:213-243 | A started run enters the loop at the entry step with the invariant established. |
| LifecycleInvariants.RestoreWorks | governai/runtime/local.py:257-301 | Any snapshot of a run of the class can be restored into a new run that meets the invariant, whatever epoch, pause or tokens it held. |
| LifecycleInvariants.TendedWorks | governai/runtime/interrupts.py:310-382 | Listing, looking at, sweeping and clearing interrupt requests keep the run invariant. |
| LifecycleInvariants.TendedFades | governai/runtime/interrupts.py:310-382 | What they do to a request: it stays, it is found expired, or it goes, with a sweep that finds it expired or a clearing that finds it expired or settled. |
| LifecycleResults.CacheAgreesWithStore | governai/runtime/local.py:1385-1405 | At every normal return the cached state equals the stored one. |
| Reloading.ReloadedContinues | governai/runtime/local.py:1266-1275 | A run at rest that a fresh runtime loads from the store, its trail empty, goes through the same states, snapshots, checkpoints, requests and events under any further turns and resumes as it would have on the runtime it left. |
| LifecycleResults.CheckpointLineage | governai/runtime/local.py:257-278 | The stored epoch counts the run's checkpoints, an abandoned run's too; from the latest, parents lead through epochs e, e-1, ..., 1, with ids strictly shortening, and then to the source checkpoint. |
| RuntimeHistories.ParentsReachARoot | governai/runtime/local.py:1385-1405 | From any checkpoint in the store of a runtime, parents lead to held checkpoints with strictly shorter ids, through any number of restores, until one that has no parent. |
| LifecycleResults.CheckpointsRestorable | governai/runtime/run_store.py:153-169 | Every checkpoint a run writes qualifies for being restored. |
| LifecycleResults.OneLiveInterrupt | governai/runtime/local.py:604-642 | At every normal return a waiting run has at most one pending request, its own and with its own epoch; any other run has none. The request of a waiting run is gone only if the store has been swept or the run's requests cleared. |
| LifecycleResults.RequestEpochsRise | governai/runtime/local.py:604-628 | A request made later in a run carries a higher epoch than every earlier request of the run. |
| LifecycleResults.AnswerResolvesOwn | governai/runtime/local.py:354-399 | A resume that sets the run going named the run's own request and, if any, the run's own epoch, though the ids are never compared. |
| LifecycleResults.AbandonedForGood | governai/runtime/local.py:303-332 | A run abandoned by an exception or by the end of its runtime stays RUNNING in the cache and in the store, with the same checkpoints and events, under any later turns, resumes and runtimes; its stored snapshot can be restored. |
| LifecycleResults.StaleAnswerRejected | governai/runtime/local.py:354-392 | An answer under another epoch or for another request leaves state, stored snapshot and checkpoints unchanged. |
| LifecycleResults.AuditReplays | governai/runtime/local.py:213-301 | Replaying the emitted events gives the run's status and current step at every normal return; a terminal event occurs at most once, last, and exactly when the run is COMPLETED or FAILED. |
| LifecycleResults.ApprovalsAccounted | governai/runtime/local.py:481-503 | Executions begun of a gated step never exceed the approvals granted for it, plus the one token a restored checkpoint may carry, in abandoned runs too; tokens are held for the current step only. |
| LifecycleResults.EveryRunIsAWalk | governai/runtime/local.py:644-698 | The executed steps form a walk along declared transitions from the first step, through gotos, handoffs and answered interrupts alike, an abandoned run included; completed_steps lists them once each and the run stands where the walk leads. |
| LifecycleResults.HandoffsLand | governai/runtime/local.py:1103-1127 | Every handoff a run accepts, answered interrupts in between or not, was made by the agent executed last, is on its allowlist, and goes to a step executed by the agent handed to. |
| NamelessStep.RepeatsAfterAnswer | governai/runtime/local.py:408-418 | A step named "" that asks for an interrupt and is answered in time is about to be executed again, its walk one longer. |
| NamelessStep.WalksExactly | governai/runtime/local.py:408-451 | All runs of a class stay on declared transitions if and only if no step is named "", or the pending limit is zero, or that step declares itself as a target; otherwise a run restored at it does not. |
| NamelessStep.RepeatsExactly | governai/runtime/local.py:408-451 | In a class without a declared cycle no run executes a step twice, under exactly that condition. |
| NamelessStep.NamelessPausesForever | governai/runtime/local.py:408-418 | A class whose one step is named "" and always asks never completes, whenever it is answered; stripped of the instruction it does. |
| StepEffects.StepHandsOn | governai/runtime/local.py:531-698 | A step executed to its end: its output is the artifact and the next payload, its update is in the channels, its token is spent, and the run stands where routing leads. |
| StepEffects.StepPauses | governai/runtime/local.py:592-642 | A step that asks for an interrupt: its execution is recorded like any other, and the run waits, its transition saved, on a pending request of its own epoch that expires with the instruction's time to live. |
| StepEffects.AnswerHandsOn | governai/runtime/local.py:394-451 | An accepted answer follows the saved transition with the answer as payload, or the step's output when the answer is None; a step named "" is entered again with the answer itself. |
| StepEffects.CheckpointKeepsToken | governai/runtime/local.py:592-602 | The checkpoint of a finished execution still holds the approval token that the cached state then drops. |
| StepEffects.RestoredTokenExecutes | governai/runtime/local.py:1245-1252 | A run restored with a token executes the gated step once without any grant of its own. |
| Decisions.GateAsks | governai/runtime/local.py:481-503 | A step that asks for approval, by its own setting or else by its executor's, and has no token: whatever the policy and the executor say, the run waits for approval with its payload kept, and nothing is executed. |
| Decisions.DenialFails | governai/runtime/local.py:515-529 | A denial fails the run with the policy's reason, in the cache and in the store, with walk, executions begun, grants, tokens, channels and artifacts as they were. |
| Decisions.ExecutionStops | governai/runtime/local.py:531-583 | An executor that asks for approval makes the run wait for it, one that fails fails the run with its error, and an agent that hands off outside its allowlist fails it; the execution has begun and has no other effect. |
| Decisions.ExecutionFinishes | governai/runtime/local.py:585-698 | An execution that finishes: when it is recorded and when an exception escapes, what the record holds channel by channel, the request and continuation of an interrupt, and where the run goes on, completes or fails, by what the output or the goto points to. |
| Decisions.ReducerRaises | governai/runtime/local.py:1192-1206 | A reducer that raises leaves the cached run with the channels listed before it updated; nothing is saved and nothing else of the state changes. |
| Decisions.ApprovalOpens | governai/runtime/local.py:334-352 | An approval gives the waiting run the token of its step and nothing else, counts as one grant, and lets it go on with the payload that had to wait. |
| Accounts.EverythingAccounted | governai/runtime/local.py:172-698 | Over every run: executions begun, approvals granted and interrupts resolved in the audit trail are as many as the labels that call for them, each told by its own condition; the manager's epoch counts the answers; and the checkpoints reported are the run's, in order, each with its parent. |
| Accounts.FailuresExplained | governai/runtime/local.py:303-332 | A label makes a run FAILED if and only if it rejects a run at rest that waits for approval, or is a turn of a supplied and permitted step with a denial, a failed executor, a handoff that is not allowed, or a target that is not declared; the error is the reason that came with it. |
| Accounts.RejectedForGood | governai/runtime/local.py:312-332 | After a rejection the run is FAILED for the reason given under all later labels: no execution, grant, token or completed step is gained. |
| Accounts.StartsBlank | governai/runtime/local.py:213-243 | A started run stands at the entry step with the channels' defaults, two checkpoints and nothing else. |
| Accounts.RestoresSnapshot | governai/runtime/local.py:257-301 | A restored run has the checkpoint's thread, step, completed steps, artifacts, channels and tokens, waits for nothing, and has that checkpoint as the parent of its first. |
| Accounts.SingleCompletes | governai/workflows/transitions.py:29-34 | Routed among texts of which one is "end" in some casing, a step that says "end" in any casing completes its run. |
| Reports.TurnReports | governai/runtime/local.py:455-698 | The audit events of every turn, in order: the step entered; then the approval asked for, or the denial and the failure, or the execution begun and completed, the handoff accepted or rejected, the transition, the interrupt requested, the end. |
| Reports.AnswerReports | governai/runtime/local.py:354-451 | The audit events of every answer: too late, refused, or resolved and followed by the saved transition. |
| Acyclic.ExecutionsBounded | governai/runtime/local.py:592-597 | In a class without a declared cycle every run, pauses included, executes each step at most once and at most as many as there are steps; completed_steps of a started run equals the walk. |
| Acyclic.AdvanceTerminates | governai/runtime/local.py:453-456 | Whatever executors and policies do, the loop of an acyclic class is left within one more iteration than there are steps. |
| Acyclic.GoingOnWalks | governai/runtime/local.py:694-698 | An iteration after which the loop goes on has executed exactly one more step. |
| PauseTransparency.PausesAreTransparent | governai/runtime/local.py:334-352 | With deterministic executors that are not interrupted under the name "" or under limit zero: the run whose gates are granted and interrupts answered None, each whenever its caller likes and among any other runs, completes if and only if the run stripped of gates and interrupts does and every answer came before its request expired; both then show the same walk, completed steps, artifacts and channels. |
| PauseTransparency.MacroStep | governai/runtime/local.py:481-642 | One iteration of the stripped run is at most four moves of the run with pauses, each run on a clock of its own; answered in time the two end alike, and otherwise the run with pauses waits for good. |
| PauseTransparency.GateOpens | governai/runtime/local.py:481-503 | Asked and granted, however late, a run stands where it stood, with the same payload and a token for the step. |
| PauseTransparency.PauseTwins | governai/runtime/local.py:604-698 | Pausing at an interrupt and being answered with None before it expires comes to the same as routing at once; answered later, the run waits for good. |
| PauseTransparency.LateAnswer | governai/runtime/interrupts.py:357-365 | An answer after the expiry leaves the run waiting on a request that nothing can resolve any more. |
| PauseLimits.TransparentExactly | governai/runtime/local.py:604-642 | In a class without a step named "", every executor's runs complete with pauses, whenever they are answered, exactly when they do without and in time, if and only if the pending limit is not zero or no run of the class completes even without pauses. |
| PauseLimits.UnsafeNotTransparent | governai/runtime/local.py:408-418 | If a run without pauses completes through a step named "", or through any step under limit zero, then an executor that asks at such steps for an interrupt answered at once never completes, though without the pauses it does. |
| OutdatedAnswers.OutdatedAnswerExactly | governai/runtime/local.py:354-399 | A resume through a runtime with an outdated copy never changes the stored run or its checkpoints; it leaves the waiting run without a request that can be answered if and only if the copy waits for an interrupt itself and the answer names the run's live request and the run's epoch. |
| OutdatedAnswers.MuteForGood | governai/runtime/local.py:367-392 | From then on the run waits, its state and stored snapshot unchanged, whatever is tried. |
| LocalRuntimes.LocalRuntime.RunWorkflow | governai/runtime/local.py:213-243 | On the object: a new run whose part of the runtime is what its turns make of it, registered as its thread's active run; every other run's cache, store entry, checkpoints, requests and trail are untouched. |
| LocalRuntimes.LocalRuntime.ResumeWorkflow | governai/runtime/local.py:245-255 | A run that is cached, or only stored by this or an earlier runtime, does what the labels of a resume and its turns say, and no other run changes; a run that does not wait is reported as it is, and an unknown one changes nothing. |
| LocalRuntimes.LocalRuntime.ResumeFromCheckpoint | governai/runtime/local.py:257-301 | The same for a restored run, from any checkpoint in the store; an unknown checkpoint id changes nothing. |
| LocalRuntimes.LocalRuntime.Advance | governai/runtime/local.py:453-698 | The loop does to the run what its turns say and keeps the runtime's indexes and ids in order. |
| LocalRuntimes.LocalRuntime.PutState | governai/runtime/local.py:1385-1405 | Caches, store, checkpoint table, trail and active-run index after a persist, accepted or refused. |
| LocalRuntimes.Persisted | governai/runtime/local.py:1385-1405 | A persist is a save of the run's kernel; it keeps every runtime invariant and touches no other run. |
| LocalRuntimes.LocalRuntime.ApplyStateUpdate | governai/runtime/local.py:1192-1199 | The update loop gives each channel the reduction of its own old value, in whatever order the update lists the channels; when a reducer raises, those before it stay updated. |
| LocalRuntimes.LocalRuntime.ActiveRun | governai/runtime/local.py:1314-1333 | A thread's active run is its most recently registered run when that run has not ended, and absent otherwise. |
| LocalRuntimes.LocalRuntime.LoadState | governai/runtime/local.py:1266-1275 | The cached state, or the stored one, which is cached from then on; nothing else changes. |
| RuntimeHistories.Restart | governai/runtime/local.py:62-111 | A new runtime over the stores of another one has them as they were, nothing cached and no trail, and all its indexes in order. |
| RuntimeHistories.EveryRunTraced | governai/runtime/local.py:149-301 | Through any sequence of starts, restores, resumes, loads, listings, sweeps and restarts, every run in the cache of a runtime and every run stored since is at every point the run that its birth and the labels it has been through make it, at rest, abandoned or in the loop, so that each result on single runs holds of it. |
| RuntimeHistories.RestartKeeps | governai/runtime/local.py:1266-1275 | Another runtime over the same stores finds a run at rest as it was left, ready to be resumed. |
| RuntimeHistories.RestartContinues | governai/runtime/local.py:245-255 | Resumed there instead of on the runtime it left, the run ends in the same state, snapshot, checkpoints and requests, with the same events. |
| RuntimeHistories.StartTraced | governai/runtime/local.py:213-301 | Starting or restoring a run adds one run the results speak of and leaves every other a run they speak of, with uuids drawn. |
| RuntimeHistories.ResumeTraced | governai/runtime/local.py:245-255 | So does resuming one of them, a run that does not wait included. |
| RuntimeHistories.RestartTraced | governai/runtime/local.py:1266-1275 | So does a restart: a run at rest goes on as it was, and one abandoned or in the loop as the store has it. |
| RuntimeHistories.RestartLoses | governai/runtime/local.py:1266-1275 | A run that is not at rest is found RUNNING by another runtime, as it was last saved. |
| RuntimeHistories.TendTraced | governai/runtime/local.py:177-200 | Looking at, listing or clearing one run's interrupts, or sweeping all, leaves every run one the results speak of. |
| RuntimeHistories.TracedResumes | governai/runtime/local.py:245-255 | Every such run that waits meets what resume_workflow is proved under. |
| Workflows.MakeClass | governai/workflows/base.py:25-86 | A namespace is accepted exactly when names are distinct, every step has a transition, every target is known and the entry is a step; the class keeps steps, order and entry. |
| Workflows.RoutingStaysInGraph | governai/workflows/runner.py:19-77 | Routing from a step of an accepted class succeeds exactly on the declared target that the output, or the goto, points to, where it fits the handoff; the errors of a malformed class never arise. |
| Workflows.HandoffChecked | governai/runtime/local.py:1178-1190 | A handoff is accepted exactly when the target step's agent is the one handed to. |
| Workflows.CasingsOfEnd | governai/models/common.py:68-72 | A reference is END_STEP after normalisation if and only if it is "end" in some casing or END_STEP already; any other is kept. |
| Accounts.SingleAccepted | governai/workflows/base.py:57-85 | A class of one step with a target is accepted if and only if the target is "end" in some casing, END_STEP, or the step's own name. |
| Namespaces.NamespaceOrder | governai/workflows/base.py:34-49 | A namespace declares of each step name the last definition, in the order in which the names appear first. |
| FlowCompiler.TransitionConfig.ValidateShape | governai/app/config.py:94-129 | Validation accepts exactly the well-shaped transitions, leaves in the place of each target what its text denotes, END_STEP for every casing of "end", and clears the fields of the other kinds. |
| FlowCompiler.ShapedIdempotent | governai/app/config.py:94-129 | Normalising a well-shaped transition twice is normalising it once, and keeps it well-shaped. |
| FlowCompiler.BuildersAgree | governai/app/flow.py:78-99 | The builders accept exactly the transitions that the config's own validator accepts, and set each target to what its text denotes. |
| FlowCompiler.ValidateTransitionTargets | governai/app/config.py:342-379 | A config passes exactly when names are distinct, targets are known and the entry is a step; the error names the defect. |
| FlowCompiler.Compile | governai/app/flow.py:102-179 | A valid, resolved, non-empty config compiles to an accepted and instantiated class with the same steps in the same order and the same entry if and only if no step bears the name of an attribute that compilation looks up ("entry_step", "steps", "_register_step_executors", the interpreter's own), its executors and the skills' tools can be registered, and the containment rules are met. |
| FlowCompiler.TakenNameBreaks | governai/workflows/base.py:88-145 | A step named "steps", or like another attribute that the constructor, the validation or the interpreter looks up, is found in that attribute's place, so that no instance can be made whatever the rest of the config. |
| FlowCompiler.LookupFinds | governai/app/flow.py:122-138 | Under every name but the entry choice's, an attribute lookup on the compiled class finds the step of that name, or what Workflow itself has when no step is called so. |
| Containment.ValidateWorkflow | governai/runtime/local.py:113-138 | validate_workflow raises nothing exactly when executors and allowlisted tools are where the containment mode wants them, every allowlisted tool is registered, and an adapter is there if anything is remote. |
| Containment.ContainedMeans | governai/runtime/local.py:113-138 | In strict mode a class passes exactly when nothing in it is local, allowlisted tools included, and it has an adapter or no steps; otherwise exactly when every allowlisted tool is registered and, without an adapter, nothing is remote. |
| Containment.Shelves.RegisterAll | governai/workflows/base.py:249-260 | The executors of the steps are registered one by one, unless known by name, and a clash of keys or remote names raises. |
| Containment.VersionedToolTwice | governai/tools/registry.py:37-46 | A tool of another than the default version in two steps makes registration raise, unless a tool of its name has the default version. |
| Containment.DefaultVersionsRegister | governai/tools/registry.py:15-46 | With default versions only and remote names that tell names apart, registration goes through. |
| Containment.RegisteredHolds | governai/workflows/base.py:249-260 | Registration overwrites nothing: every tool is registered after it, under its own or the default version, every agent by its name, and nothing else. |
| FlowCompiler.CompilationPreservesMeaning | governai/app/config.py:388-400 | resolve_next_step on the compiled step equals direct interpretation of the config's transition, on every output and handoff. |
| FlowCompiler.EntryStepNameBreaks | governai/app/flow.py:102-138 | A step named "entry_step" is lost from the namespace or taken for the entry choice. |
| RunStore.InMemoryRunStore.Put | governai/runtime/run_store.py:121-135 | Epoch compare-and-set with the state's epoch and checkpoint id assigned, all indexes updated, and nothing changed on a refusal. |
| RunStore.InMemoryRunStore.Delete | governai/runtime/run_store.py:144-151 | State, thread history and active entry of the run go; checkpoints stay. |
| RunStore.InMemoryRunStore.ListRunIds | governai/runtime/run_store.py:208-217 | The thread's runs that still exist, in order, with the index healed. |
| StoreLaws.PutReads | governai/runtime/run_store.py:121-166 | What a put writes is read back under its run id, under its checkpoint id and as the thread's latest checkpoint. |
| RedisKeys.KeysDistinct | governai/runtime/run_store.py:282-300 | The five key builders never collide for safe run ids and arbitrary thread and checkpoint ids. |
| RedisKeys.ColonFreeIsSafe | governai/runtime/run_store.py:282-284 | Every colon-free run id is safe. |
| RedisKeys.SafeExactly | governai/runtime/run_store.py:282-300 | A run id keeps its key to itself if and only if it does not begin "checkpoint:" and does not lie between "thread:" and one of the three index suffixes. |
| RedisRunStore.RedisRunStore.Put | governai/runtime/run_store.py:321-375 | The WATCH loop among any commits of others to the watched run ends as the retry specification says, database and caller's state included. |
| RedisRunStore.RetryBound | governai/runtime/run_store.py:327-373 | At most four attempts; every attempt but the last lost to a rival; the caller's epoch advances by at most one per attempt. |
| RedisRunStore.CommitExtendsStore | governai/runtime/run_store.py:336-364 | A committed put extends by one the epoch its last attempt read. |
| RedisRunStore.RetryOverwritesNewer | governai/runtime/run_store.py:336-348 | A caller whose copy is as new as the store and who loses its first window to any newer version overwrites that version on its second attempt. |
| RedisRunStore.CommitReads | governai/runtime/run_store.py:349-364 | One EXEC makes snapshot, checkpoint and one index entry visible together and changes no other key. |
| RedisCommits.CommitOrder | governai/runtime/run_store.py:330-364 | Under every interleaving the committed epochs of a run are 1, 2, 3, ..., the run key holds the last, and each thread index lists exactly the commits. |
| RedisCommits.OverwrittenExactly | governai/runtime/run_store.py:327-373 | Under every interleaving a put that entered at epoch e overwrites exactly the commits between e and its own epoch, at most three and at most one per lost attempt; if its copy was not ahead of the store, exactly as many as it lost attempts, so some if and only if it lost one. |
| RedisCommits.UndisturbedCommits | governai/runtime/run_store.py:327-364 | From every reachable state, a caller that nobody disturbs commits the next epoch if it is not behind the store, and writes nothing if it is. |
| StoreRefinement.RedisRefinesMemory | governai/runtime/run_store.py:311-509 | Every sequence of operations with safe run ids and new checkpoint ids gets the same replies from both run stores. |
| StoreRefinement.OperationRefines | governai/runtime/run_store.py:377-509 | Each operation replies alike on related stores and keeps them related. |
| StoreRefinement.EmptyStoresAgree | governai/runtime/run_store.py:93-509 | Started empty, the two run stores answer every such sequence alike. |
| StoreRefinement.WatchedPutRefines | governai/runtime/run_store.py:321-375 | The WATCH loop with no rival in its first window gives the in-memory put's result or its error, and keeps the stores related. |
| StoreRefinement.RepeatedIdDiffers | governai/runtime/run_store.py:349-420 | After a put or a checkpoint write under an id its thread already lists, Redis lists the checkpoint twice and the in-memory store once. |
| Fencing.StaleWriterFenced | governai/runtime/run_store.py:121-135 | Once a run is stored past epoch e, every later put of a copy at e or older is refused with the store unchanged, whatever any runtime does in between. |
| Fencing.OneRuntimePerEpoch | governai/runtime/local.py:303-352 | In every interleaving of runtimes that each drive any number of runs, at most one drives a run; every epoch of a run, its start included, is claimed at most once; and every executor call was made under a claim, by the runtime that holds it. |
| Fencing.LoserNeverExecutes | governai/runtime/local.py:348-352 | A runtime that loses the put of a resume changes nothing in the store and calls no executor for that run ever again, whatever any runtime does from then on. |
| Fencing.WinnerExecutes | governai/runtime/local.py:348-352 | A runtime that claims a waiting run at the stored epoch wins it: the store moves on by one, the claim is on record and the executor may be called. |
| Fencing.DriverProceeds | governai/runtime/local.py:1385-1405 | Every put of the runtime that drives a run is accepted and moves the store by one epoch, and it drives the run for as long as it is live. |
| Fencing.EpochsNeverFall | governai/runtime/run_store.py:121-135 | Stored epochs never fall and no run disappears. |
| Interrupts.InMemoryInterruptStore.SweepExpired | governai/runtime/interrupts.py:100-112 | Removes exactly the due requests of every run, keeps the rest in order, and returns their number. |
| InterruptManager.InterruptManager.Create | governai/runtime/interrupts.py:276-308 | Creation under a limit, with the ageing of expired requests that counting leaves behind. |
| InterruptManager.InterruptManager.ListPending | governai/runtime/interrupts.py:328-344 | The live requests of an epoch, sorted; every expired one is marked. |
| InterruptManager.OrderSorts | governai/runtime/interrupts.py:343 | The sort is a permutation, ascending by creation time and then by id. |
| InterruptManager.InterruptManager.GetLatestPending | governai/runtime/interrupts.py:321-326 | The live request created last, or none when there is none. |
| InterruptManager.InterruptManager.Resolve | governai/runtime/interrupts.py:346-372 | Unknown, settled, expired, wrong epoch, or resolved, with the store after each. |
| InterruptManager.InterruptManager.ClearExpired | governai/runtime/interrupts.py:374-382 | Removes exactly the settled and expired requests of one run and counts them. |
| InterruptManager.OneShot | governai/runtime/interrupts.py:346-372 | Under any calls, as time passes, no request is resolved twice, and each resolution found its request pending, unexpired and under the epoch given. |
| InterruptManager.ResolvedOnce | governai/runtime/interrupts.py:346-372 | From an empty store, stated on the resolutions alone: no two of the same request, each pending, unexpired and under its epoch. |
| InterruptManager.SettledForGood | governai/runtime/interrupts.py:310-382 | A resolved or expired request never becomes pending again and its id is never reissued. |
| InterruptManager.LimitHolds | governai/runtime/interrupts.py:288-293 | A creation that succeeds leaves at most the limit of live requests of its epoch. |
| DeskLaws.CreateTells | governai/runtime/interrupts.py:276-308 | A creation fails if and only if there is a limit that is not negative and as many requests of the epoch are open; otherwise the new request is there, and no other changes but those found too late while counting. |
| DeskLaws.ListTells | governai/runtime/interrupts.py:328-344 | A listing holds exactly the open requests, each once, by creation time and then by the text of the id; those found too late are marked and nothing else changes. |
| RedisInterrupts.KeysNeverCollide | governai/runtime/interrupts.py:152-162 | With clean run ids, in which ":request:" does not occur even with a colon added, the three key builders never collide, whatever the interrupt ids. |
| RedisInterrupts.ScanFindsRequests | governai/runtime/interrupts.py:234-237 | The sweep's pattern matches exactly the request keys of clean runs. |
| RedisInterrupts.UncleanCollides | governai/runtime/interrupts.py:152-158 | A run id that is not clean shares its epoch's key with a request of the run named by what comes before ":request:". |
| RedisInterrupts.RedisInterruptStore.SweepExpired | governai/runtime/interrupts.py:228-247 | Whatever pages the scan returns, repeated keys included, exactly the due requests go, each counted once. |
| RedisInterrupts.RedisInterruptStore.ListRequests | governai/runtime/interrupts.py:202-217 | The requests the index names and the store still has, in order, with the index healed. |
| InterruptRefinement.RedisRefinesMemory | governai/runtime/interrupts.py:184-247 | Every sequence of operations on clean run ids gets the same replies from both interrupt stores, stale index and all, as long as no swept id is saved again before its run is listed. |
| InterruptRefinement.EmptyStoresAgree | governai/runtime/interrupts.py:63-247 | Started empty, the two interrupt stores answer every such sequence alike. |
| InterruptRefinement.CleanExactly | governai/runtime/interrupts.py:152-200 | Beside clean run ids, a run id gets the same replies from both stores in every sequence without a stale save if and only if it is clean. |
| InterruptRefinement.UncleanDiffers | governai/runtime/interrupts.py:152-200 | Setting the epoch of a run whose id is not clean takes away another run's request in Redis only. |
| InterruptRefinement.OperationRefines | governai/runtime/interrupts.py:63-247 | Each operation replies alike on related stores and keeps them related. |
| InterruptRefinement.StaleSaveExactly | governai/runtime/interrupts.py:184-217 | A swept id saved again before its run is listed: the next listing is the same in both stores if and only if no request the index names after it is still held, and then the stores stay related. |
| InterruptRefinement.StaleSaveDiffers | governai/runtime/interrupts.py:184-192 | Saving a swept id again before its run is listed makes the two stores list in different orders. |
| RemoteAgent.RemoteAgreesWithLocal | governai/runtime/local.py:1015-1101 | With at most one tool call on each path, or a budget of one, the turn protocol ends as local execution does, with the same governed executions; they are equal exactly when the payloads are dictionaries. |
| RemoteAgent.RemoteBounded | governai/runtime/local.py:1019-1065 | Whatever a sandbox answers, executions stay within max_tool_calls and the allowlist, and turns exceed executions by at most one. |
| RemoteAgent.ExecuteRemotely | governai/runtime/local.py:1015-1101 | The control loop runs the turn protocol, within those bounds; AgentExits says how it ends. |
| RemoteAgent.TwoCallsDiverge | governai/sandbox/service.py:70-88 | Two calls of different tools, whatever the handler and its payloads: remotely both tools are executed and the run fails in its third turn, so it corresponds to local execution exactly when that raises. |
| RemoteAgent.RemoteReplays | governai/sandbox/service.py:188-266 | For every handler that begins with an allowed call and every tool, the remote run is the replay of its first call with the latest result: exit, executions and turns. |
| RemoteAgent.SecondCallExactly | governai/sandbox/service.py:70-88 | Over all handlers that go on to a different tool, remote and local correspond if and only if the local run raises or the second call gets no result. |
| RemoteAgent.SameToolReplays | governai/sandbox/service.py:70-88 | A second call of the same tool replaces the first result; the remote run corresponds exactly when the handler ends alike on the second result alone. |
| RemoteAgent.ExecuteTurn | governai/sandbox/service.py:188-266 | A worker turn re-runs the handler from its start and stops at the first call it has no result for. |
| RemoteAgent.RemoteAgentExecutionContext.UseTool | governai/sandbox/service.py:70-88 | One resumed result is handed out once, to the tool it belongs to; any further call stops the turn or exceeds the budget. |
| RemoteAgent.AgentExecutionContext.UseTool | governai/agents/context.py:47-56 | A call outside the allowlist or the budget neither counts nor reaches the tool. |
| RemoteAgent.ExecuteLocally | governai/agents/base.py:65-106 | Local execution of a handler, call by call, within its budget; AgentExits says how it ends. |
| AgentExits.LocalAgentExits | governai/agents/base.py:65-106 | For every handler: its calls are those executed, in order, at most as many as it may; one answered with a demand for approval or an error is the last and makes the exit a request for approval or the tool's error; otherwise the exit is what the handler itself comes to. Approval is asked for if and only if the last call was answered so, or the handler asks itself. |
| AgentExits.RemoteAgentExits | governai/runtime/local.py:1015-1101 | The same for every sandbox: the calls executed are those it asked for turn by turn, each request brings the latest answer, and the exit and the number of turns follow from the last answer or the last response. |
| AgentExits.TurnResponds | governai/sandbox/service.py:188-266 | What a turn responds, by where the handler stands once the request's answer is handed out: a result, the next call, or a failure. |
| Secrets.RedactionComplete | governai/runtime/secrets.py:53-56 | When no secret touches the marker, no text holds any secret after redaction, whatever the order of the set. |
| Secrets.SingleSecretExact | governai/runtime/secrets.py:53-56 | One secret is always removed if and only if no overlap of the secret with the marker lets it survive. |
| Secrets.CleanTextUnchanged | governai/runtime/secrets.py:53-56 | A text without secrets is not changed. |
| Secrets.FirstReplaced | governai/runtime/secrets.py:53-56 | One replacement keeps the text up to the first occurrence, puts the marker for it and goes on after it. |
| Secrets.SecretRegistry.Redact | governai/runtime/secrets.py:46-56 | The loop over the set redacts in some order of all registered values, and is complete and idle under those conditions. |
| Reducers.AppendsJoin | governai/runtime/reducers.py:27-39 | Two appends, of lists or of single items, are one append of all their items; one raises if and only if the other does. |
| Reducers.MergesJoin | governai/runtime/reducers.py:16-24 | Two merges one by one are the merge of both at once; a second update that is no dict raises either way. |
| Reducers.PrunedAt | governai/runtime/reducers.py:60-66 | The prune reducer keeps every item of a list at a position not named, after exactly the items kept before it. |
| Reducers.PrunedCount | governai/runtime/reducers.py:60-66 | The prune reducer removes from a list exactly as many items as there are positions of it named. |
| Reducers.PrunesCommute | governai/runtime/reducers.py:47-59 | Pruning a dict by two updates, in either order, removes the keys of both. |
| ChannelUpdates.UpdatesJoin | governai/runtime/local.py:1192-1206 | Under the reducers a flow configures by name, two state updates one after the other do what one joined update does, unless both prune the same channel: it raises exactly when one of the two raises, and otherwise leaves the same channels. |
| ChannelUpdates.UpdateLeaves | governai/runtime/reducers.py:10-68 | By the reducers' names as texts: an update raises exactly when the reducer of one of its channels does; otherwise each channel holds what "replace", "merge", "append", "clear" or "prune" leaves of its old value and the update's, item by item and key by key, and every other channel what it held. |
| ChannelUpdates.UnnamedReplace | governai/runtime/local.py:1201-1206 | Channels without a reducer, or with the one named "replace", take the values of the update. |

## Left out

- LifecycleResults.CacheAgreesWithStore: says nothing of a run that an exception abandoned (missing artifact, reducer error, refused interrupt, routing error after a resume), whose cached state may be ahead of the stored one.
- LifecycleResults.EveryRunIsAWalk: where an abandoned run stands and what it lists as completed is not claimed, only that its executions are a walk.
- LifecycleResults.AuditReplays: events that carry no status or step (policy checks, agent entry and completion, execution failures, handoff proposals) and event payloads beyond the names used are not modelled.
- Reports.TurnReports: the events named in the line above are not among those told.
- Workflows.CasingsOfEnd: lower-casing is modelled for the letters A to Z; no other character lowers to one of "e", "n", "d".
- PauseTransparency.PausesAreTransparent: policies always allow, and a caller grants and answers rather than rejects.
- PauseLimits.TransparentExactly: for classes with a step named "" only one direction is stated, by UnsafeNotTransparent.
- Secrets.RedactionComplete: the exact condition is stated for one secret only; with several, what one replacement leaves another may complete.
- LocalRuntimes.LocalRuntime.RunWorkflow: the environment's turns are a finite list, after which the loop is left where it stands; audit trails are kept per run, so their order across runs is not modelled; one workflow class per runtime object, and its calls one after the other.
- LocalRuntimes.LocalRuntime.PutState: run states are values, so the aliasing of the cached object with the caller's object and with executor contexts is not modelled; executors do not write the reserved metadata keys.
- Fencing.OneRuntimePerEpoch: two calls that resume the same run on the same runtime at once, which would share one cached object, are not among its steps.
- RemoteAgent.RemoteAgreesWithLocal: a handoff loses its payload remotely, so handoffs agree on the agent only; handlers do not catch the exceptions of a tool call; validation is taken to accept and keep what it has produced.
- RedisRunStore.RedisRunStore.Put: the commits of other clients between WATCH and EXEC are a parameter; RedisCommits interleaves the steps of all clients instead.
- FlowCompiler.Compile: which names the interpreter's class protocol reads, and what an executor says of its version, remote name, placement and allowlist, are parameters; names that shadow attributes read only after compilation ("name", "run", "get_step" and the like) compile and break the object later.
- Redis expiry, concurrent use of the Redis secondary indexes outside the transaction, and a crash between a put and the interrupt epoch sync.
- The run store and the interrupt store share no transaction in the model, as in the source; Fencing is about the run store alone, and OutdatedAnswers about one run and one outdated copy of it.
- RuntimeHistories.EveryRunTraced: a runtime ends between two iterations of a loop, not inside one.
- Tool, agent and CLI bodies, pydantic and JSON encoding, policies beyond allow or deny, nested tool calls other than as one governed execution.
- DSL parsing, YAML and JSON loading, registries, skills, manifests, capability grants, memory connectors, the thread lifecycle table, reducers registered under new names, audit persistence, and the sandbox's HTTP shell.
- The fallback to a saved pending input on restore: the key is removed before it is read, so it never has an effect.
