/** A run carried on by another runtime over the same stores: nothing but the stored snapshot, the
    checkpoints and the interrupt store decides what it does next. */
module Reloading {
  import opened Prelude
  import opened Values
  import opened RunStates
  import opened RunStore
  import opened Workflows
  import opened Interrupts
  import opened InterruptManager
  import opened Lifecycle
  import opened LifecycleInvariants
  import opened LifecycleResults

  /** The same run with earlier events before its own. */
  function After(past: seq<Event>, k: Kernel): Kernel {
    k.(trail := past + k.trail, sum := Replay(past + k.trail))
  }

  function AfterBoth(past: seq<Event>, r: Result<Kernel, Kernel>): Result<Kernel, Kernel> {
    match r
    case Success(k) => Success(After(past, k))
    case Failure(k) => Failure(After(past, k))
  }

  // ---- no operation looks at the trail ----

  lemma AfterEmit(past: seq<Event>, k: Kernel, e: Event)
    ensures Emit(After(past, k), e) == After(past, Emit(k, e))
  {
    ReplaySnoc(past + k.trail, e);
    assert past + k.trail + [e] == past + (k.trail + [e]);
  }

  lemma AfterSave(past: seq<Event>, k: Kernel, s: RunState)
    ensures Save(After(past, k), s) == AfterBoth(past, Save(k, s))
  {
    hide Emit, Replay, Consistent;
    var linked := s.(parentCheckpointId := s.checkpointId, checkpointId := None);
    var v := NextVersion(k.stored, linked, Uuid(k.issued));
    if v.Success? {
      var w := v.value;
      AfterEmit(past, k.(state := w, stored := Some(w), lineage := k.lineage + [w], issued := k.issued + 1),
                CheckpointWritten(w.checkpointId.value, w.parentCheckpointId));
    }
  }

  lemma AfterEnds(past: seq<Event>, k: Kernel, error: string, step: string, payload: Value)
    ensures Complete(After(past, k)) == AfterBoth(past, Complete(k))
    ensures FailRun(After(past, k), error) == AfterBoth(past, FailRun(k, error))
    ensures AskApproval(After(past, k), step, payload) == AfterBoth(past, AskApproval(k, step, payload))
  {
    hide Emit, Replay, Save;
    AfterSaved(past, k, k.state.(currentStep := None, status := COMPLETED), RunCompleted);
    AfterSaved(past, k, k.state.(status := FAILED, error := Some(error)), RunFailed);
    AfterSaved(past, k,
        k.state.(pendingApproval := Some(step), status := WAITING_APPROVAL, pendingInput := Some(payload)),
               ApprovalRequested(step));
  }

  lemma AfterSaved(past: seq<Event>, k: Kernel, s: RunState, e: Event)
    ensures Save(After(past, k), s) == AfterBoth(past, Save(k, s))
    ensures Save(k, s).Success? ==> Emit(After(past, Save(k, s).value), e) == After(past, Emit(Save(k, s).value, e))
  {
    hide Emit, Replay, Save, After;
    AfterSave(past, k, s);
    if Save(k, s).Success? {
      AfterEmit(past, Save(k, s).value, e);
    }
  }

  lemma AfterTransit(past: seq<Event>, k: Kernel, step: string, next: string, handoff: Option<string>, payload: Value)
    ensures Transit(After(past, k), step, next, handoff, payload)
      == AfterBoth(past, Transit(k, step, next, handoff, payload))
  {
    hide Emit, Replay, Save, Complete;
    if handoff.Some? {
      AfterEmit(past, k, HandoffAccepted(handoff.value, next));
    }
    var k1 := if handoff.Some? then Emit(k, HandoffAccepted(handoff.value, next)) else k;
    AfterEmit(past, k1, TransitionChosen(step, next));
    var k2 := Emit(k1, TransitionChosen(step, next));
    AfterEnds(past, k2, "", "", Null);
    AfterSave(past, k2, k2.state.(currentStep := Some(next)));
  }

  lemma AfterRoute(past: seq<Event>, setup: Setup, k: Kernel, step: Step, output: Value, handoff: Option<string>,
                   command: Option<Command>)
    ensures Route(setup, After(past, k), step, output, handoff, command)
      == AfterBoth(past, Route(setup, k, step, output, handoff, command))
  {
    hide Emit, Replay, Transit, FailRun, RouteNext, After, AfterBoth;
    match RouteNext(step, output, setup.workflow.steps, handoff, GotoOf(command), setup.str)
    case Success(next) => AfterTransit(past, k, step.name, next, handoff, output);
    case Failure(_) =>
      if handoff.Some? {
        AfterEmit(past, k, HandoffRejected(handoff.value));
      }
      AfterEnds(past, if handoff.Some? then Emit(k, HandoffRejected(handoff.value))
          else k, "illegal transition", "", Null);
  }

  lemma AfterPause(past: seq<Event>, setup: Setup, k: Kernel, step: Step, output: Value, handoff: Option<string>,
                   command: Command, now: int)
    requires command.interrupt.Some?
    ensures Pause(setup, After(past, k), step, output, handoff, command, now)
         == AfterBoth(past, Pause(setup, k, step, output, handoff, command, now))
  {
    hide Emit, Replay, Save, Created, Saved;
    var c := Created(k.desk, k.state.runId, step.name, command.interrupt.value.ttlSeconds.GetOr(setup.defaultTtl),
                     Some(k.state.epoch), Some(setup.maxPending), now, Uuid(k.issued));
    if c.1.Success? {
      var q := c.1.value;
      var k0 := k.(desk := c.0, issued := k.issued + 1);
      var s := k.state.(pendingInterruptId := Some(q.interruptId), status := WAITING_INTERRUPT,
                        pendingResume := Some(Continuation(step.name, output, handoff, command)));
      AfterSave(past, k0, s);
      if Save(k0, s).Success? {
        var k1 := Save(k0, s).value;
        var k2 := if q.epoch != k1.state.epoch then k1.(desk := Saved(k1.desk, q.(epoch := k1.state.epoch))) else k1;
        AfterEmit(past, k2, InterruptRequested(step.name, q.interruptId, k1.state.epoch));
      }
    }
  }

  lemma AfterRecord(past: seq<Event>, setup: Setup, k: Kernel, step: Step, output: Value, command: Option<Command>)
    ensures Record(setup, After(past, k), step, output, command)
      == AfterBoth(past, Record(setup, k, step, output, command))
  {
    hide Replay, Save, ApplyUpdate, Recorded;
    var update := if command.Some? then command.value.stateUpdate else map[];
    var channels := ApplyUpdate(setup, k.state.channels, update);
    if channels.Some? {
      AfterSave(past, k, Recorded(k.state, step, output, channels.value));
    }
  }

  lemma AfterFinish(past: seq<Event>, setup: Setup, k: Kernel, step: Step, out: Outcome, now: int)
    requires out.Finished?
    ensures Finish(setup, After(past, k), step, out, now) == AfterBoth(past, Finish(setup, k, step, out, now))
  {
    hide Record, Pause, Route, After;
    var output := OutputOf(out.output, out.command);
    AfterRecord(past, setup, k, step, output, out.command);
    var r := Record(setup, k, step, output, out.command);
    if r.Success? {
      if out.command.Some? && out.command.value.interrupt.Some? {
        AfterPause(past, setup, r.value, step, output, out.handoff, out.command.value, now);
      } else {
        AfterRoute(past, setup, r.value, step, output, out.handoff, out.command);
      }
    }
  }

  lemma AfterExecute(past: seq<Event>, setup: Setup, k: Kernel, step: Step, payload: Value, turn: Turn)
    ensures Execute(setup, After(past, k), step, payload, turn)
      == AfterBoth(past, Execute(setup, k, step, payload, turn))
  {
    hide Emit, Finish, AskApproval, FailRun, Admitted, After, AfterBoth;
    AfterEmit(past, k, ExecutionStarted(step.name));
    var k1 := Emit(k, ExecutionStarted(step.name));
    match Admitted(step, turn.outcome)
    case NeedsApproval => AfterEnds(past, k1, "", step.name, payload);
    case Fails(error) => AfterEnds(past, k1, error, "", payload);
    case Finished(output, handoff, command) =>
      AfterEmit(past, k1, ExecutionCompleted(step.name));
      AfterFinish(past, setup, Emit(k1, ExecutionCompleted(step.name)), step, Finished(output, handoff, command),
          turn.now);
  }

  lemma AfterAttempt(past: seq<Event>, setup: Setup, k: Kernel, payload: Value, turn: Turn)
    ensures Attempt(setup, After(past, k), payload, turn) == AfterBoth(past, Attempt(setup, k, payload, turn))
  {
    hide Emit, Replay, Execute, Complete, FailRun, AskApproval, MissingArtifact, RequiresApproval, Find;
    AfterEnds(past, k, "", "", payload);
    if k.state.currentStep.Some? && Find(setup.workflow.steps, k.state.currentStep.value).Some? {
      var step := Find(setup.workflow.steps, k.state.currentStep.value).value;
      AfterEmit(past, k, StepEntered(step.name));
      var k1 := Emit(k, StepEntered(step.name));
      AfterEnds(past, k1, "", step.name, payload);
      AfterEmit(past, k1, PolicyDenied(step.name));
      AfterEnds(past, Emit(k1, PolicyDenied(step.name)), turn.denied.GetOr(""), "", payload);
      AfterExecute(past, setup, k1, step, payload, turn);
    }
  }

  lemma AfterApproval(past: seq<Event>, k: Kernel, payload: ResumePayload)
    ensures ResumeApproval(After(past, k), payload) == AfterBoth(past, ResumeApproval(k, payload))
  {
    hide Emit, Replay, Save, FailRun;
    AfterEmit(past, k, ApprovalRejected(k.state.currentStep));
    AfterEmit(past, k, ApprovalGranted(k.state.currentStep));
    if k.state.pendingApproval.Some? {
      AfterSave(past, Emit(k, ApprovalGranted(k.state.currentStep)), Approved(k.state));
    }
    if payload.Reject? {
      AfterEnds(past, Emit(k, ApprovalRejected(k.state.currentStep)).(state := k.state.(pendingApproval := None)),
          payload.reason, "", Null);
    }
  }

  lemma AfterFollow(past: seq<Event>, setup: Setup, k: Kernel, response: Value)
    ensures FollowContinuation(setup, After(past, k), response)
      == AfterBoth(past, FollowContinuation(setup, k, response))
  {
    hide Replay, Transit, RouteNext, Find;
    var c := k.state.pendingResume;
    var k1 := k.(state := k.state.(pendingResume := None));
    if c.Some? && Find(setup.workflow.steps, c.value.stepName).Some? {
      var r := RouteNext(Find(setup.workflow.steps, c.value.stepName).value, c.value.output, setup.workflow.steps,
          c.value.handoff,
                         c.value.command.goto, setup.str);
      if r.Success? {
        AfterTransit(past, k1, c.value.stepName, r.value, c.value.handoff, if response.Null? then c.value.output
            else response);
      }
    }
  }

  lemma AfterInterrupt(past: seq<Event>, setup: Setup, k: Kernel, payload: ResumePayload, now: int)
    ensures ResumeInterrupt(setup, After(past, k), payload, now)
      == AfterBoth(past, ResumeInterrupt(setup, k, payload, now))
  {
    hide Emit, Replay, Save, Settled, Bumped, FollowContinuation;
    if payload.Answer? {
      var c := Settled(k.desk, k.state.runId, payload.interruptId, Some(payload.epoch.GetOr(k.state.epoch)), now);
      AfterEmit(past, k.(desk := c.0), InterruptExpired(payload.interruptId));
      AfterEmit(past, k.(desk := c.0), InterruptRejectedEpoch(payload.interruptId));
      var k0 := k.(desk := Bumped(c.0, k.state.runId));
      AfterSaved(past, k0, Answered(k.state), InterruptResolved(payload.interruptId));
      if Save(k0, Answered(k.state)).Success? {
        AfterFollow(past, setup, Emit(Save(k0, Answered(k.state)).value, InterruptResolved(payload.interruptId)),
            payload.response);
      }
    }
  }

  lemma AfterResume(past: seq<Event>, setup: Setup, k: Kernel, payload: ResumePayload, now: int)
    ensures Resume(setup, After(past, k), payload, now) == After(past, Resume(setup, k, payload, now))
  {
    hide Replay, ResumeApproval, ResumeInterrupt;
    AfterApproval(past, k, payload);
    AfterInterrupt(past, setup, k, payload, now);
  }

  lemma AfterIterate(past: seq<Event>, setup: Setup, k: Kernel, turn: Turn)
    requires k.phase.Advancing?
    ensures Iterate(setup, After(past, k), turn) == After(past, Iterate(setup, k, turn))
  {
    hide Replay, Attempt;
    AfterAttempt(past, setup, k, k.phase.payload, turn);
  }

  lemma AfterNext(past: seq<Event>, setup: Setup, k: Kernel, l: Label)
    ensures Next(setup, After(past, k), l) == After(past, Next(setup, k, l))
  {
    hide Replay, Iterate, Resume, Tended;
    match l
    case Go(turn) =>
      if k.phase.Advancing? {
        AfterIterate(past, setup, k, turn);
      }
    case Call(payload, now) => AfterResume(past, setup, k, payload, now);
    case _ =>
  }

  lemma {:induction false} AfterRun(past: seq<Event>, setup: Setup, k: Kernel, labels: seq<Label>)
    ensures Run(setup, After(past, k), labels) == After(past, Run(setup, k, labels))
    decreases |labels|
  {
    hide Next, After;
    if labels != [] {
      AfterNext(past, setup, k, labels[0]);
      AfterRun(past, setup, Next(setup, k, labels[0]), labels[1..]);
    }
  }

  // ---- loading a run from its store ----

  /** What a runtime that has never seen the run finds in the stores. */
  function Reloaded(k: Kernel): Kernel
    requires k.stored.Some?
  {
    Kernel(k.stored.value, k.stored, k.lineage, k.desk, [], UNREAD, k.issued, if k.phase.Idle? then Idle else Crashed)
  }

  /** A run at rest that another runtime loads from the store goes on exactly as it would have here:
      under any further turns, resumes and uuids drawn by others, the states, snapshots, checkpoints,
      interrupt requests and events are the same, the events following those already emitted. */
  lemma ReloadedContinues(setup: Setup, b: Birth, labels: seq<Label>, more: seq<Label>)
    requires Accepted(setup.workflow) && Genuine(setup, b) && Later(setup, b, labels).phase.Idle?
    ensures
      var k := Later(setup, b, labels);
      && k.stored.Some?
      && var here, there := Run(setup, k, more), Run(setup, Reloaded(k), more);
         && there.state == here.state && there.stored == here.stored && there.lineage == here.lineage
         && there.desk == here.desk && there.issued == here.issued && there.phase == here.phase
         && here.trail == k.trail + there.trail
  {
    hide Run, Born, Genuine, Closed, Coherent, Distinct, Inv;
    CacheAgreesWithStore(setup, b, labels);
    var k := Later(setup, b, labels);
    SumReplayed(setup, b, labels);
    assert k.trail + [] == k.trail;
    assert After(k.trail, Reloaded(k)) == k;
    AfterRun(k.trail, setup, Reloaded(k), more);
  }

  lemma SumReplayed(setup: Setup, b: Birth, labels: seq<Label>)
    requires Accepted(setup.workflow) && Genuine(setup, b) && Later(setup, b, labels).phase.Idle?
    ensures Later(setup, b, labels).sum == Replay(Later(setup, b, labels).trail)
  {
    hide Run, Born, Genuine, Closed, Coherent, Distinct, Storage, Synced, Story, OneOpen, CheckpointsPlaced, Replay;
    Always(setup, b, labels);
  }
}
