/** What one iteration and one answer leave behind, in full: outputs, channels, payloads, tokens. */
module StepEffects {
  import opened Prelude
  import opened Values
  import opened RunStates
  import opened Sequences
  import opened Workflows
  import opened Interrupts
  import opened InterruptManager
  import opened Lifecycle
  import opened LifecycleInvariants
  import opened PauseTransparency

  /** The state a finished execution is recorded in. */
  predicate HandedOn(setup: Setup, before: RunState, after: RunState, step: Step, output: Value,
                     command: Option<Command>)
  {
    && after.artifacts == before.artifacts[step.emittedArtifact.GetOr(step.name) := output]
    && after.completedSteps == AddOnce(before.completedSteps, step.name)
    && Some(after.channels)
       == ApplyUpdate(setup, before.channels, if command.Some? then command.value.stateUpdate else map[])
    && after.approvedSteps == {}
  }

  /** Leaving a step after it is recorded. */
  lemma RoutedOn(setup: Setup, o: Origin, k: Kernel, step: Step, output: Value, handoff: Option<string>,
                 command: Option<Command>)
    requires Accepted(setup.workflow) && step in setup.workflow.steps && Left(setup, o, k, step.name)
    requires Allowlisted(setup.workflow.steps, step.name, handoff)
    ensures
      var n := Settle(Route(setup, k, step, output, handoff, command));
      && SameView(n, k) && n.state.approvedSteps == {}
      && match RouteNext(step, output, setup.workflow.steps, handoff, GotoOf(command), setup.str)
         case Success(next) =>
           if next == END_STEP then Done(n) && n.state.currentStep == None
           else n.phase == Advancing(output) && n.state.currentStep == Some(next)
         case Failure(_) => n.phase.Idle? && n.state.status == FAILED && n.state.currentStep == Some(step.name)
  {
    hide Accepted, Left, Transit, RouteNext, FailRun, Emit, Edge, Names, SameView, Allowlisted, Lands, HandoverOk,
      Leaving;
    RoutedEdge(setup, step, output, handoff, GotoOf(command));
    RoutedHandover(setup, step, output, handoff, GotoOf(command));
    var r := RouteNext(step, output, setup.workflow.steps, handoff, GotoOf(command), setup.str);
    if r.Success? {
      LeftLoose(setup, o, k, step.name);
      TransitView(setup, o, k, step.name, r.value, handoff, output);
      SameViewIs(Transit(k, step.name, r.value, handoff, output).value, k);
    } else {
      RouteFails(setup, o, k, step, output, handoff, command);
      FailedRouteView(setup, o, k, step, output, handoff, command);
    }
  }

  /** A run that fails on its way out of a step keeps what it has to show. */
  lemma FailedRouteView(setup: Setup, o: Origin, k: Kernel, step: Step, output: Value, handoff: Option<string>,
                        command: Option<Command>)
    requires Left(setup, o, k, step.name)
    requires RouteNext(step, output, setup.workflow.steps, handoff, GotoOf(command), setup.str).Failure?
    ensures
      var n := Settle(Route(setup, k, step, output, handoff, command));
      SameView(n, k) && n.state.approvedSteps == {} && n.state.currentStep == Some(step.name)
  {
    hide Loose, Emit, RouteNext, FailRun, SameView, Leaving;
    LeftLoose(setup, o, k, step.name);
    if handoff.Some? {
      LooseEmit(setup, o, k, HandoffRejected(handoff.value));
      EmitState(k, HandoffRejected(handoff.value));
    }
    var k1 := if handoff.Some? then Emit(k, HandoffRejected(handoff.value)) else k;
    FailView(setup, o, k1, "illegal transition");
    SameViewIs(FailRun(k1, "illegal transition").value, k1);
    SameViewIs(Settle(Route(setup, k, step, output, handoff, command)), k);
  }

  lemma FailView(setup: Setup, o: Origin, k: Kernel, error: string)
    requires Loose(setup, o, k)
    ensures FailRun(k, error).Success?
    ensures
      var n := FailRun(k, error).value;
      && SameView(n, k) && n.state.approvedSteps == k.state.approvedSteps && n.state.currentStep == k.state.currentStep
  {
    hide Storage, Linked, Path, OneOpen, Replay, Save, AddAll, CheckpointsPlaced, Stamped, TokensOk, WalkBase;
    var s := k.state.(status := FAILED, error := Some(error));
    SaveWorks(setup, o, k, s);
    StampedFields(s, k.issued);
  }

  lemma LeftLoose(setup: Setup, o: Origin, k: Kernel, step: string)
    requires Left(setup, o, k, step)
    ensures Loose(setup, o, k) && k.sum.status == k.state.status == RUNNING && k.state.approvedSteps == {}
    ensures Leaving(k.sum.walk, Some(step))
  {
    hide Loose;
  }

  lemma SameViewIs(a: Kernel, b: Kernel)
    ensures SameView(a, b) <==>
      && a.sum.walk == b.sum.walk && a.state.completedSteps == b.state.completedSteps
      && a.state.artifacts == b.state.artifacts && a.state.channels == b.state.channels
  {
  }

  /** A step that is executed to the end without an interrupt: its output is the artifact and the next
      payload, its update is in the channels, its token is spent, and the run stands where routing from
      the output leads. */
  lemma StepHandsOn(setup: Setup, o: Origin, k: Kernel, step: Step, turn: Turn)
    requires Accepted(setup.workflow) && InLoop(setup, o, k) && step in setup.workflow.steps
    requires k.state.currentStep == Some(step.name) && !MissingArtifact(step, k.state.artifacts)
    requires !RequiresApproval(step, k.state) && turn.denied.None?
    requires
      var out := Admitted(step, turn.outcome);
      && out.Finished? && !CannotFinish(setup, k.state, out.command)
      && (out.command.Some? ==> out.command.value.interrupt.None?)
    ensures
      var out := Admitted(step, turn.outcome);
      var output := OutputOf(out.output, out.command);
      var n := Iterate(setup, k, turn);
      && HandedOn(setup, k.state, n.state, step, output, out.command) && n.sum.walk == k.sum.walk + [step.name]
      && match RouteNext(step, output, setup.workflow.steps, out.handoff, GotoOf(out.command), setup.str)
         case Success(next) =>
           if next == END_STEP then Done(n) && n.state.currentStep == None
           else n.phase == Advancing(output) && n.state.currentStep == Some(next)
         case Failure(_) => n.phase.Idle? && n.state.status == FAILED && n.state.currentStep == Some(step.name)
  {
    hide Accepted, InLoop, Ran, Left, RouteNext, Route, Record, Emit, Find, MissingArtifact, RequiresApproval, Admitted,
      ApplyUpdate, Pause, CannotFinish, AskApproval, FailRun, Complete;
    var out := Admitted(step, turn.outcome);
    var output := OutputOf(out.output, out.command);
    StepFound(setup, step);
    Fired(setup, o, k, step);
    var k2 := Entered(k, step.name);
    RanAfter(setup, o, k2, step);
    var k3 := Emit(k2, ExecutionCompleted(step.name));
    RanRecorded(setup, o, k3, step, output, out.command);
    var k4 := Record(setup, k3, step, output, out.command).value;
    AdmittedAllowlisted(setup, step, turn.outcome);
    RoutedOn(setup, o, k4, step, output, out.handoff, out.command);
  }

  lemma RanRecorded(setup: Setup, o: Origin, k: Kernel, step: Step, output: Value, command: Option<Command>)
    requires Ran(setup, o, k, step.name) && !CannotFinish(setup, k.state, command)
    ensures
      var r := Record(setup, k, step, output, command);
      && r.Success? && Left(setup, o, r.value, step.name) && r.value.sum == k.sum
      && HandedOn(setup, k.state, r.value.state, step, output, command)
  {
    hide Unrecorded, Loose, Record, ApplyUpdate, Leaving, AddAll, Walkable;
    RecordFails(setup, o, k, step, output, command);
    RecordWorks(setup, o, k, step, output, command);
    RecordView(setup, o, k, step, output, command);
  }

  /** A step that asks for an interrupt: its execution is recorded like any other, and the run waits, with
      the transition saved, on a request that expires when the instruction's time to live is over. */
  lemma StepPauses(setup: Setup, o: Origin, k: Kernel, step: Step, turn: Turn)
    requires Accepted(setup.workflow) && InLoop(setup, o, k) && step in setup.workflow.steps && setup.maxPending > 0
    requires k.state.currentStep == Some(step.name) && !MissingArtifact(step, k.state.artifacts)
    requires !RequiresApproval(step, k.state) && turn.denied.None?
    requires
      var out := Admitted(step, turn.outcome);
      && out.Finished? && !CannotFinish(setup, k.state, out.command)
      && out.command.Some? && out.command.value.interrupt.Some?
    ensures
      var out := Admitted(step, turn.outcome);
      var output := OutputOf(out.output, out.command);
      var n := Iterate(setup, k, turn);
      && Inv(setup, o, n) && n.phase == Idle && n.state.status == WAITING_INTERRUPT
         && n.state.currentStep == k.state.currentStep
      && HandedOn(setup, k.state, n.state, step, output, out.command) && n.sum.walk == k.sum.walk + [step.name]
      && n.state.pendingResume == Some(Continuation(step.name, output, out.handoff, out.command.value))
      && n.state.pendingInterruptId.Some?
      && var q := RequestOf(n.desk, n.state.runId, n.state.pendingInterruptId.value);
         && q.Some? && q.value.status.Pending? && q.value.epoch == n.state.epoch && q.value.createdAt == turn.now
         && q.value.expiresAt == turn.now + out.command.value.interrupt.value.ttlSeconds.GetOr(setup.defaultTtl)
  {
    hide Accepted, InLoop, Inv, Ran, Left, RouteNext, Route, Record, Emit, Find, MissingArtifact, RequiresApproval,
      Admitted, ApplyUpdate, Pause, CannotFinish, AskApproval, FailRun, Complete, RequestOf, Allowlisted;
    var out := Admitted(step, turn.outcome);
    var output := OutputOf(out.output, out.command);
    StepFound(setup, step);
    Fired(setup, o, k, step);
    var k2 := Entered(k, step.name);
    RanAfter(setup, o, k2, step);
    var k3 := Emit(k2, ExecutionCompleted(step.name));
    RanRecorded(setup, o, k3, step, output, out.command);
    var k4 := Record(setup, k3, step, output, out.command).value;
    AdmittedAllowlisted(setup, step, turn.outcome);
    LeftPauses(setup, o, k4, step, output, out.handoff, out.command.value, turn.now);
  }

  lemma LeftPauses(setup: Setup, o: Origin, k: Kernel, step: Step, output: Value, handoff: Option<string>,
                   command: Command, now: int)
    requires Left(setup, o, k, step.name) && setup.maxPending > 0 && command.interrupt.Some?
    requires Allowlisted(setup.workflow.steps, step.name, handoff)
    ensures
      var r := Pause(setup, k, step, output, handoff, command, now);
      && r.Success? && Inv(setup, o, r.value) && r.value.phase == Idle && r.value.state.status == WAITING_INTERRUPT
      && SameView(r.value, k) && r.value.state.currentStep == Some(step.name) && r.value.state.approvedSteps == {}
      && r.value.state.pendingResume == Some(Continuation(step.name, output, handoff, command))
      && r.value.state.pendingInterruptId.Some?
      && RequestOf(r.value.desk, r.value.state.runId, r.value.state.pendingInterruptId.value) ==
           Some(Request(r.value.state.pendingInterruptId.value, r.value.state.runId, step.name, r.value.state.epoch,
               now,
                        now + command.interrupt.value.ttlSeconds.GetOr(setup.defaultTtl), Pending))
  {
    hide Inv, Loose, Pause, RequestOf, Allowlisted;
    PauseWorks(setup, o, k, step, output, handoff, command, now);
    PauseView(setup, o, k, step, output, handoff, command, now);
    InterruptLoose(setup, o, Pause(setup, k, step, output, handoff, command, now).value);
  }

  /** An answer that is accepted: the run follows the saved transition, with the answer as payload, or the
      interrupted step's output when the answer is None. A step named "" is executed again instead, on
      the answer itself. */
  lemma AnswerHandsOn(setup: Setup, o: Origin, k: Kernel, step: Step, response: Value, now: int)
    requires Accepted(setup.workflow) && Inv(setup, o, k) && step in setup.workflow.steps
    requires k.phase.Idle? && k.state.status == WAITING_INTERRUPT && k.state.pendingInterruptId.Some?
    requires k.state.currentStep == Some(step.name) && k.state.pendingResume.Some?
    requires
      var q := RequestOf(k.desk, k.state.runId, k.state.pendingInterruptId.value);
      q.Some? && q.value.status.Pending? && q.value.expiresAt > now && q.value.epoch == k.state.epoch
    ensures
      var c := k.state.pendingResume.value;
      var n := Resume(setup, k, Answer(k.state.pendingInterruptId.value, response, None), now);
      if step.name == "" then SameView(n, k) && n.state.currentStep == Some("") && n.phase == Advancing(response)
      else match RouteNext(step, c.output, setup.workflow.steps, c.handoff, c.command.goto, setup.str)
        case Success(next) =>
          && SameView(n, k)
          && (if next == END_STEP then Done(n)
              else
                && n.state.currentStep == Some(next)
                && n.phase == Advancing(if response.Null? then c.output else response))
        case Failure(_) => n.phase.Crashed?
  {
    hide Accepted, Inv, Loose, RouteNext, Transit, ResumeInterrupt, FollowContinuation, RequestOf, SameView, Find, Edge,
      Allowlisted, Lands, HandoverOk, Leaving;
    InterruptLoose(setup, o, k);
    var n := AnswerView(setup, o, k, response, now);
    TwinView(n, k);
    SameViewIs(n, k);
    var popped := n.(state := n.state.(pendingResume := None));
    if step.name == "" {
      RepeatIs(setup, n, response);
      var again := popped.(phase := Advancing(response));
      SameViewIs(again, k);
      assert Resume(setup, k, Answer(k.state.pendingInterruptId.value, response, None), now) == again;
    } else {
      FollowIs(setup, n, step, response);
      var c := k.state.pendingResume.value;
      RoutedEdge(setup, step, c.output, c.handoff, c.command.goto);
      RoutedHandover(setup, step, c.output, c.handoff, c.command.goto);
      var r := RouteNext(step, c.output, setup.workflow.steps, c.handoff, c.command.goto, setup.str);
      PopLoose(setup, o, n);
      if r.Success? {
        TransitView(setup, o, popped, step.name, r.value, c.handoff, if response.Null? then c.output else response);
        SameViewIs(Transit(popped, step.name, r.value, c.handoff, if response.Null? then c.output else response).value,
            k);
      }
    }
  }

  lemma RepeatIs(setup: Setup, k: Kernel, response: Value)
    requires k.state.pendingResume.Some? && k.state.pendingResume.value.stepName == ""
    ensures FollowContinuation(setup, k, response)
      == Success(k.(state := k.state.(pendingResume := None), phase := Advancing(response)))
  {
  }

  lemma TwinView(a: Kernel, b: Kernel)
    requires Twin(a, b)
    ensures SameView(a, b) && a.state.currentStep == b.state.currentStep
  {
  }

  // ---- why a restored run may have a token to spare ----

  /** The checkpoint of a finished execution is written before its token goes: restored from it, the run
      stands at the same step with the token back. */
  lemma CheckpointKeepsToken(setup: Setup, o: Origin, k: Kernel, step: Step, output: Value, command: Option<Command>)
    requires Ran(setup, o, k, step.name) && Record(setup, k, step, output, command).Success?
    ensures
      var n := Record(setup, k, step, output, command).value;
      && n.stored.Some? && n.stored.value.approvedSteps == k.state.approvedSteps
      && n.stored.value.currentStep == Some(step.name) && step.name !in n.state.approvedSteps
  {
    hide Linked, OneOpen, Replay, CheckpointsPlaced, Save, AddAll, WalkBase, Names, ApplyUpdate, Stamped, TokensOk;
    var update := if command.Some? then command.value.stateUpdate else map[];
    var channels := ApplyUpdate(setup, k.state.channels, update);
    if channels.Some? {
      var s := Recorded(k.state, step, output, channels.value);
      SaveWorks(setup, o, k, s);
      StampedFields(s, k.issued);
    }
  }

  /** Such a restored run executes a gated step without a grant of its own. */
  lemma RestoredTokenExecutes(setup: Setup, snapshot: RunState, source: string, runId: string, payload: Value,
                              issued: nat, step: Step, now: int)
    requires Accepted(setup.workflow) && Placed(setup, snapshot) && step in setup.workflow.steps && Gated(step)
    requires snapshot.currentStep == Some(step.name) && step.name in snapshot.approvedSteps
      && !MissingArtifact(step, snapshot.artifacts)
    ensures
      var n := Iterate(setup, Restore(snapshot, source, runId, payload, issued), Turn(None, Fails(""), now));
      && n.phase == Idle && n.sum == Replay(n.trail)
      && n.sum.attempts[step.name] == 1 && n.sum.grants[Some(step.name)] == 0
  {
    hide Accepted, Inv, Restore, MissingArtifact, Gated, Iterate, Placed;
    RestoreWorks(setup, snapshot, source, runId, payload, issued);
    RestoredSum(snapshot, source, runId, payload, issued, step.name);
    TokenAttempt(setup, Resumed(snapshot), Restore(snapshot, source, runId, payload, issued), step, now);
  }

  /** A held token lets the step be executed, whatever was granted. */
  lemma TokenAttempt(setup: Setup, o: Origin, k: Kernel, step: Step, now: int)
    requires Accepted(setup.workflow) && InLoop(setup, o, k) && step in setup.workflow.steps
    requires k.state.currentStep == Some(step.name) && step.name in k.state.approvedSteps
      && !MissingArtifact(step, k.state.artifacts)
    ensures
      var n := Iterate(setup, k, Turn(None, Fails(""), now));
      && n.phase == Idle && n.sum == Replay(n.trail)
      && n.sum.attempts[step.name] == k.sum.attempts[step.name] + 1
         && n.sum.grants[Some(step.name)] == k.sum.grants[Some(step.name)]
  {
    hide Accepted, Inv, Emit, Read, Save, MissingArtifact, Find, AskApproval, FailRun, Finish, Execute, Complete, Gated,
      Attempt;
    var payload := k.phase.payload;
    StepFound(setup, step);
    Fired(setup, o, k, step);
    EnteredSum(k, step.name);
    FailSum(setup, o, Entered(k, step.name), "");
    ExecuteFails(setup, Emit(k, StepEntered(step.name)), step, payload, now);
    AttemptExecutes(setup, k, step, payload, Turn(None, Fails(""), now));
  }

  lemma AttemptExecutes(setup: Setup, k: Kernel, step: Step, payload: Value, turn: Turn)
    requires k.state.currentStep == Some(step.name) && Find(setup.workflow.steps, step.name) == Some(step)
    requires !MissingArtifact(step, k.state.artifacts) && !RequiresApproval(step, k.state) && turn.denied.None?
    ensures Attempt(setup, k, payload, turn) == Execute(setup, Emit(k, StepEntered(step.name)), step, payload, turn)
  {
    hide Emit, Execute, MissingArtifact, RequiresApproval, Find;
  }

  lemma ExecuteFails(setup: Setup, k: Kernel, step: Step, payload: Value, now: int)
    ensures Execute(setup, k, step, payload, Turn(None, Fails(""), now))
      == FailRun(Emit(k, ExecutionStarted(step.name)), "")
  {
    hide Emit, FailRun;
  }

  lemma RestoredSum(snapshot: RunState, source: string, runId: string, payload: Value, issued: nat, step: string)
    ensures
      var k := Restore(snapshot, source, runId, payload, issued);
      && k.sum.attempts[step] == 0 && k.sum.grants[Some(step)] == 0
      && k.state.artifacts == snapshot.artifacts && k.state.currentStep == snapshot.currentStep
      && k.state.approvedSteps == snapshot.approvedSteps
  {
    hide Consistent;
  }

  lemma EnteredSum(k: Kernel, step: string)
    ensures
      var n := Entered(k, step);
      n.sum.attempts[step] == k.sum.attempts[step] + 1 && n.sum.grants[Some(step)] == k.sum.grants[Some(step)]
  {
  }

  lemma FailSum(setup: Setup, o: Origin, k: Kernel, error: string)
    requires Loose(setup, o, k)
    ensures FailRun(k, error).Success?
    ensures
      var n := FailRun(k, error).value;
      n.sum.attempts == k.sum.attempts && n.sum.grants == k.sum.grants && n.phase == Idle && n.sum == Replay(n.trail)
  {
    hide Storage, Linked, Path, OneOpen, Replay, Save, AddAll, CheckpointsPlaced, Stamped, TokensOk, WalkBase;
    var s := k.state.(status := FAILED, error := Some(error));
    SaveWorks(setup, o, k, s);
    StampedFields(s, k.issued);
    EmitReplays(Save(k, s).value, RunFailed);
  }
}
