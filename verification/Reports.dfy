/** The audit trail, event by event: what every turn and every resume of a run reports, and in which order. */
module Reports {
  import opened Prelude
  import opened Values
  import opened RunStates
  import opened RunStore
  import opened Workflows
  import opened Interrupts
  import opened InterruptManager
  import opened Lifecycle
  import opened LifecycleInvariants
  import opened LifecycleResults
  import opened PauseTransparency
  import opened StepEffects
  import opened Decisions
  import opened Accounts

  /** The trail without the reports of checkpoints. */
  function Reported(trail: seq<Event>): seq<Event> {
    if trail == [] then []
    else
      var last := trail[|trail| - 1];
      Reported(trail[..|trail| - 1]) + (if last.CheckpointWritten? then [] else [last])
  }

  lemma ReportedSnoc(trail: seq<Event>, e: Event)
    ensures Reported(trail + [e]) == Reported(trail) + (if e.CheckpointWritten? then [] else [e])
  {
    assert (trail + [e])[..|trail|] == trail;
  }

  /** From one kernel to the next these events are reported. */
  predicate Tells(k: Kernel, n: Kernel, events: seq<Event>) {
    Reported(n.trail) == Reported(k.trail) + events
  }

  lemma TellsMore(a: Kernel, b: Kernel, c: Kernel, first: seq<Event>, more: seq<Event>)
    requires Tells(a, b, first) && Tells(b, c, more)
    ensures Tells(a, c, first + more)
  {
  }

  lemma TellsBoth(a: Kernel, b: Kernel, c: Kernel, e: Event, f: Event)
    requires Tells(a, b, [e]) && Tells(b, c, [f])
    ensures Tells(a, c, [e, f])
  {
    assert [e] + [f] == [e, f];
    TellsMore(a, b, c, [e], [f]);
  }

  lemma NothingTold(k: Kernel)
    ensures Tells(k, k.(phase := Crashed), [])
  {
  }

  lemma EmitTells(k: Kernel, e: Event)
    requires !e.CheckpointWritten?
    ensures Tells(k, Emit(k, e), [e])
  {
    hide Reported;
    ReportedSnoc(k.trail, e);
  }

  lemma SaveTells(k: Kernel, s: RunState)
    ensures Reported(Settle(Save(k, s)).trail) == Reported(k.trail)
  {
    hide Reported;
    var linked := s.(parentCheckpointId := s.checkpointId, checkpointId := None);
    match NextVersion(k.stored, linked, Uuid(k.issued))
    case Failure(_) =>
    case Success(w) => ReportedSnoc(k.trail, CheckpointWritten(w.checkpointId.value, w.parentCheckpointId));
  }

  lemma StopsTell(k: Kernel, error: string, step: string, payload: Value)
    ensures Complete(k).Success? ==> Tells(k, Complete(k).value, [RunCompleted])
    ensures FailRun(k, error).Success? ==> Tells(k, FailRun(k, error).value, [RunFailed])
    ensures AskApproval(k, step, payload).Success? ==>
      Tells(k, AskApproval(k, step, payload).value, [ApprovalRequested(step)])
  {
    hide Save, Emit, Reported;
    StopTells(k, k.state.(currentStep := None, status := COMPLETED), RunCompleted);
    StopTells(k, k.state.(status := FAILED, error := Some(error)), RunFailed);
    StopTells(k, k.state.(pendingApproval := Some(step), status := WAITING_APPROVAL, pendingInput := Some(payload)),
        ApprovalRequested(step));
  }

  lemma StopTells(k: Kernel, s: RunState, e: Event)
    requires !e.CheckpointWritten?
    ensures Save(k, s).Success? ==> Tells(k, Emit(Save(k, s).value, e).(phase := Idle), [e])
  {
    hide Save, Reported;
    SaveTells(k, s);
    if Save(k, s).Success? {
      EmitTells(Save(k, s).value, e);
    }
  }

  // ---- one turn ----

  /** On the way out of a step. */
  function Leaves(step: string, next: string, handoff: Option<string>): seq<Event> {
    (if handoff.Some? then [HandoffAccepted(handoff.value, next)] else []) + [TransitionChosen(step, next)]
    + (if next == "__END__" then [RunCompleted] else [])
  }

  lemma TransitTells(k: Kernel, step: string, next: string, handoff: Option<string>, payload: Value)
    ensures
      var r := Transit(k, step, next, handoff, payload);
      r.Success? ==> Tells(k, r.value, Leaves(step, next, handoff))
  {
    hide Save, Complete, Emit, Reported;
    var k1 := if handoff.Some? then Emit(k, HandoffAccepted(handoff.value, next)) else k;
    EmitTells(k, HandoffAccepted(handoff.GetOr(""), next));
    EmitTells(k1, TransitionChosen(step, next));
    var k2 := Emit(k1, TransitionChosen(step, next));
    StopsTell(k2, "", "", Null);
    SaveTells(k2, k2.state.(currentStep := Some(next)));
  }

  /** A turn that is routed. */
  ghost predicate RoutedTells(k: Kernel, n: Kernel, step: string, next: Option<string>, handoff: Option<string>) {
    match next
    case Some(to) => Tells(k, n, Leaves(step, to, handoff))
    case None => Tells(k, n, (if handoff.Some? then [HandoffRejected(handoff.value)] else []) + [RunFailed])
  }

  lemma RouteTells(setup: Setup, k: Kernel, step: Step, output: Value, handoff: Option<string>,
                   command: Option<Command>)
    ensures
      var r := Route(setup, k, step, output, handoff, command);
      var next := RouteNext(step, output, setup.workflow.steps, handoff, GotoOf(command), setup.str);
      r.Success? ==> RoutedTells(k, r.value, step.name, if next.Success? then Some(next.value) else None, handoff)
  {
    hide Transit, RouteNext, FailRun, Emit, Reported;
    match RouteNext(step, output, setup.workflow.steps, handoff, GotoOf(command), setup.str)
    case Success(next) => TransitTells(k, step.name, next, handoff, output);
    case Failure(_) =>
      EmitTells(k, HandoffRejected(handoff.GetOr("")));
      StopsTell(k, "illegal transition", "", Null);
      StopsTell(Emit(k, HandoffRejected(handoff.GetOr(""))), "illegal transition", "", Null);
  }

  lemma PauseTells(setup: Setup, k: Kernel, step: Step, output: Value, handoff: Option<string>, command: Command,
                   now: int)
    requires command.interrupt.Some?
    ensures
      var r := Pause(setup, k, step, output, handoff, command, now);
      match r
      case Failure(n) => Tells(k, n, [])
      case Success(n) => exists id, epoch :: Tells(k, n, [InterruptRequested(step.name, id, epoch)])
  {
    hide Save, Created, Saved, Uuid, Emit, Reported;
    var ttl := command.interrupt.value.ttlSeconds.GetOr(setup.defaultTtl);
    var c := Created(k.desk, k.state.runId, step.name, ttl, Some(k.state.epoch), Some(setup.maxPending), now,
        Uuid(k.issued));
    if c.1.Success? {
      var q := c.1.value;
      var k0 := k.(desk := c.0, issued := k.issued + 1);
      var s := k.state.(pendingInterruptId := Some(q.interruptId), status := WAITING_INTERRUPT,
                        pendingResume := Some(Continuation(step.name, output, handoff, command)));
      SaveTells(k0, s);
      if Save(k0, s).Success? {
        var k1 := Save(k0, s).value;
        var k2 := if q.epoch != k1.state.epoch then k1.(desk := Saved(k1.desk, q.(epoch := k1.state.epoch))) else k1;
        EmitTells(k2, InterruptRequested(step.name, q.interruptId, k1.state.epoch));
        assert Tells(k, Emit(k2, InterruptRequested(step.name, q.interruptId, k1.state.epoch)).(phase := Idle),
            [InterruptRequested(step.name, q.interruptId, k1.state.epoch)]);
      }
    }
  }

  lemma RecordTells(setup: Setup, k: Kernel, step: Step, output: Value, command: Option<Command>)
    ensures Tells(k, Settle(Record(setup, k, step, output, command)), [])
  {
    hide Save, ApplyUpdate, Lifecycle.Reached, Reported;
    var update := if command.Some? then command.value.stateUpdate else map[];
    var channels := ApplyUpdate(setup, k.state.channels, update);
    if channels.Some? {
      SaveTells(k, Recorded(k.state, step, output, channels.value));
    }
  }

  predicate AsksUser(command: Option<Command>) {
    command.Some? && command.value.interrupt.Some?
  }

  lemma FinishTells(setup: Setup, k: Kernel, step: Step, out: Outcome, now: int)
    requires out.Finished?
    ensures
      var r := Finish(setup, k, step, out, now);
      var next := RouteNext(step, OutputOf(out.output, out.command), setup.workflow.steps, out.handoff,
        GotoOf(out.command), setup.str);
      var recorded := Record(setup, k, step, OutputOf(out.output, out.command), out.command).Success?;
      match r
      case Failure(n) => AsksUser(out.command) || !recorded ==> Tells(k, n, [])
      case Success(n) =>
        if AsksUser(out.command)
        then exists id, epoch :: Tells(k, n, [InterruptRequested(step.name, id, epoch)])
        else RoutedTells(k, n, step.name, if next.Success? then Some(next.value) else None, out.handoff)
  {
    hide Record, Pause, Route, RouteNext, Reported, OutputOf, GotoOf;
    var output := OutputOf(out.output, out.command);
    RecordTells(setup, k, step, output, out.command);
    var r := Record(setup, k, step, output, out.command);
    if r.Success? {
      if AsksUser(out.command) {
        PauseTells(setup, r.value, step, output, out.handoff, out.command.value, now);
        var p := Pause(setup, r.value, step, output, out.handoff, out.command.value, now);
        if p.Success? {
          var id, epoch :| Tells(r.value, p.value, [InterruptRequested(step.name, id, epoch)]);
          assert Tells(k, p.value, [InterruptRequested(step.name, id, epoch)]);
        }
      } else {
        RouteTells(setup, r.value, step, output, out.handoff, out.command);
      }
    }
  }

  /** Where the run stands after a turn that was routed, END_STEP included. */
  function Standing(s: RunState): string {
    if s.currentStep.Some? then s.currentStep.value else "__END__"
  }

  /** What an execution reports from its beginning on. */
  ghost predicate ExecutionTold(setup: Setup, k: Kernel, n: Kernel, step: Step, out: Outcome) {
    match out
    case NeedsApproval => Tells(k, n, [ExecutionStarted(step.name), ApprovalRequested(step.name)])
    case Fails(_) => Tells(k, n, [ExecutionStarted(step.name), RunFailed])
    case Finished(_, _, command) =>
      var ran := [ExecutionStarted(step.name), ExecutionCompleted(step.name)];
      if Strays(step, out) then Tells(k, n, [ExecutionStarted(step.name), RunFailed])
      else if n.phase.Crashed? then Tells(k, n, ran)
      else if AsksUser(command) then
        exists id, epoch :: Tells(k, n, ran + [InterruptRequested(step.name, id, epoch)])
      else if n.state.status == FAILED then
        Tells(k, n, ran + (if Handoff(step, out).Some? then [HandoffRejected(Handoff(step, out).value)] else [])
          + [RunFailed])
      else Tells(k, n, ran + Leaves(step.name, Standing(n.state), Handoff(step, out)))
  }

  /** What a turn reports. */
  ghost predicate TurnTold(setup: Setup, k: Kernel, n: Kernel, step: Step, turn: Turn) {
    var entered := Emit(k, StepEntered(step.name));
    && Tells(k, entered, [StepEntered(step.name)])
    && (if !Supplied(step, k.state) then Tells(entered, n, [])
        else if !Permitted(step, k.state) then Tells(entered, n, [ApprovalRequested(step.name)])
        else if turn.denied.Some? then Tells(entered, n, [PolicyDenied(step.name), RunFailed])
        else ExecutionTold(setup, entered, n, step, turn.outcome))
  }

  lemma ExecuteIs(setup: Setup, k: Kernel, step: Step, payload: Value, turn: Turn)
    ensures
      var k1 := Emit(k, ExecutionStarted(step.name));
      var out := Admitted(step, turn.outcome);
      Execute(setup, k, step, payload, turn) ==
        match out
        case NeedsApproval => AskApproval(k1, step.name, payload)
        case Fails(error) => FailRun(k1, error)
        case Finished(_, _, _) => Finish(setup, Emit(k1, ExecutionCompleted(step.name)), step, out, turn.now)
  {
    hide Emit, AskApproval, FailRun, Finish, Admitted;
  }

  /** An execution that finishes, after the two reports of it. */
  lemma FinishedTold(setup: Setup, o: Origin, k: Kernel, k3: Kernel, step: Step, turn: Turn)
    requires Facing(setup, o, k, step) && Supplied(step, k.state) && Permitted(step, k.state) && turn.denied.None?
    requires turn.outcome.Finished? && !Strays(step, turn.outcome)
    requires k3 == Emit(Emit(Emit(k, StepEntered(step.name)), ExecutionStarted(step.name)),
        ExecutionCompleted(step.name))
    requires Iterate(setup, k, turn) == Settle(Finish(setup, k3, step, Admitted(step, turn.outcome), turn.now))
    ensures
      var n := Iterate(setup, k, turn);
      var command := turn.outcome.command;
      if n.phase.Crashed? then Tells(k3, n, [])
      else if AsksUser(command) then exists id, epoch :: Tells(k3, n, [InterruptRequested(step.name, id, epoch)])
      else if n.state.status == FAILED then
        Tells(k3, n, (if Handoff(step, turn.outcome).Some? then [HandoffRejected(Handoff(step, turn.outcome).value)]
              else []) + [RunFailed])
      else Tells(k3, n, Leaves(step.name, Standing(n.state), Handoff(step, turn.outcome)))
  {
    hide Accepted, Inv, Iterate, Supplied, Permitted, CanFinish, CannotFinish, Strays, Admitted, RouteNext, Finish,
      OutputOf, GotoOf, Reported, Leaves, Handoff, Emit, Record, ApplyUpdate, MissingArtifact, RequiresApproval, Find,
      Abandons, HandedOn, RequestOf;
    var out := Admitted(step, turn.outcome);
    var n := Iterate(setup, k, turn);
    FinishTerms(setup, k.state, step, turn.outcome);
    TermsAgree(step, k.state);
    StepFound(setup, step);
    IterateWorks(setup, o, k, turn);
    AbandonsThen(setup, k.state, step, turn);
    FinishTells(setup, k3, step, out, turn.now);
    FinishSettles(setup, o, k, k3, step, turn);
    if !n.phase.Crashed? && !AsksUser(out.command) {
      StepHandsOn(setup, o, k, step, turn);
      if n.phase.Advancing? {
        LoopIsLoose(setup, o, n);
      }
    }
  }

  /** A turn crashes where the execution cannot be recorded, or its interrupt is refused. */
  lemma FinishSettles(setup: Setup, o: Origin, k: Kernel, k3: Kernel, step: Step, turn: Turn)
    requires Facing(setup, o, k, step) && !RequiresApproval(step, k.state)
    requires Admitted(step, turn.outcome).Finished?
    requires k3 == Emit(Emit(Emit(k, StepEntered(step.name)), ExecutionStarted(step.name)),
        ExecutionCompleted(step.name))
    ensures
      var out := Admitted(step, turn.outcome);
      var r := Finish(setup, k3, step, out, turn.now);
      var recorded := Record(setup, k3, step, OutputOf(out.output, out.command), out.command).Success?;
      && (r.Failure? <==> CannotFinish(setup, k.state, out.command)) && (r.Success? ==> !r.value.phase.Crashed?)
      && (r.Failure? ==> AsksUser(out.command) || !recorded)
  {
    hide Accepted, Inv, Admitted, Finish, OutputOf, Emit, Record, ApplyUpdate, RequiresApproval, Loose, Entering, Find,
      Unrecorded, Ran, Wrecked;
    var out := Admitted(step, turn.outcome);
    LoopIsLoose(setup, o, k);
    Fired(setup, o, k, step);
    var k2 := Entered(k, step.name);
    EmitState(Emit(k, StepEntered(step.name)), ExecutionStarted(step.name));
    EmitState(k, StepEntered(step.name));
    AdmittedAllowlisted(setup, step, turn.outcome);
    FinishWorks(setup, o, k2, step, out, turn.now);
    RanAfter(setup, o, k2, step);
    RanUnrecorded(setup, o, k3, step.name);
    RecordFails(setup, o, k3, step, OutputOf(out.output, out.command), out.command);
    if Finish(setup, k3, step, out, turn.now).Success? {
      NotCrashed(setup, o, Finish(setup, k3, step, out, turn.now).value);
    }
  }

  lemma RanUnrecorded(setup: Setup, o: Origin, k: Kernel, step: string)
    requires Ran(setup, o, k, step)
    ensures Unrecorded(setup, o, k) && k.state.currentStep == Some(step) && k.state.status == RUNNING
  {
    hide Unrecorded;
  }

  lemma RanTold(setup: Setup, k1: Kernel, k3: Kernel, n: Kernel, step: Step, out: Outcome)
    requires out.Finished? && !Strays(step, out)
    requires Tells(k1, k3, [ExecutionStarted(step.name), ExecutionCompleted(step.name)])
    requires
      if n.phase.Crashed? then Tells(k3, n, [])
      else if AsksUser(out.command) then exists id, epoch :: Tells(k3, n, [InterruptRequested(step.name, id, epoch)])
      else if n.state.status == FAILED then
        Tells(k3, n, (if Handoff(step, out).Some? then [HandoffRejected(Handoff(step, out).value)] else [])
          + [RunFailed])
      else Tells(k3, n, Leaves(step.name, Standing(n.state), Handoff(step, out)))
    ensures ExecutionTold(setup, k1, n, step, out)
  {
    hide Tells, Leaves, Strays, Handoff;
    var ran := [ExecutionStarted(step.name), ExecutionCompleted(step.name)];
    if n.phase.Crashed? {
      TellsMore(k1, k3, n, ran, []);
      assert ran + [] == ran;
    } else if AsksUser(out.command) {
      var id, epoch :| Tells(k3, n, [InterruptRequested(step.name, id, epoch)]);
      TellsMore(k1, k3, n, ran, [InterruptRequested(step.name, id, epoch)]);
    } else if n.state.status == FAILED {
      var back := if Handoff(step, out).Some? then [HandoffRejected(Handoff(step, out).value)] else [];
      TellsMore(k1, k3, n, ran, back + [RunFailed]);
      assert ran + (back + [RunFailed]) == ran + back + [RunFailed];
    } else {
      TellsMore(k1, k3, n, ran, Leaves(step.name, Standing(n.state), Handoff(step, out)));
    }
  }

  /** An execution that stops at the executor. */
  lemma StoppedTold(setup: Setup, o: Origin, k: Kernel, step: Step, turn: Turn)
    requires Facing(setup, o, k, step) && Supplied(step, k.state) && Permitted(step, k.state) && turn.denied.None?
    requires !turn.outcome.Finished? || Strays(step, turn.outcome)
    ensures ExecutionTold(setup, Emit(k, StepEntered(step.name)), Iterate(setup, k, turn), step, turn.outcome)
  {
    hide Accepted, Inv, Iterate, Supplied, Permitted, Tells, Emit, FailRun, AskApproval, Finish, MissingArtifact,
      RequiresApproval, Find, Loose, Execute, Entering, TokensOk;
    TermsAgree(step, k.state);
    StepFound(setup, step);
    IterateIs(setup, k, turn);
    AttemptExecutes(setup, k, step, k.phase.payload, turn);
    var k1 := Emit(k, StepEntered(step.name));
    var k2 := Emit(k1, ExecutionStarted(step.name));
    ExecuteIs(setup, k1, step, k.phase.payload, turn);
    EmitTells(k1, ExecutionStarted(step.name));
    Fired(setup, o, k, step);
    var n := Iterate(setup, k, turn);
    match Admitted(step, turn.outcome)
    case NeedsApproval =>
      AskTells(setup, o, k2, step.name, k.phase.payload);
      StopsTell(k2, "", step.name, k.phase.payload);
      TellsBoth(k1, k2, n, ExecutionStarted(step.name), ApprovalRequested(step.name));
    case Fails(error) =>
      FailTells(setup, o, k2, error);
      StopsTell(k2, error, "", Null);
      TellsBoth(k1, k2, n, ExecutionStarted(step.name), RunFailed);
    case Finished(_, _, _) =>
  }

  /** Main result: every turn reports that the step is entered; then, in this order, the approval asked for, or
      the denial and the failure, or the execution with how it goes on: completed or not, a handoff accepted
      or rejected, the transition taken, the interrupt requested, the end. */
  lemma TurnReports(setup: Setup, o: Origin, k: Kernel, step: Step, turn: Turn)
    requires Facing(setup, o, k, step)
    ensures TurnTold(setup, k, Iterate(setup, k, turn), step, turn)
  {
    hide Accepted, Inv, Iterate, Supplied, Permitted, Strays, Admitted, Finish, Tells, Leaves, Handoff, Emit, FailRun,
      AskApproval, MissingArtifact, RequiresApproval, Find, Loose, Execute, Entering, TokensOk;
    var payload := k.phase.payload;
    TermsAgree(step, k.state);
    StepFound(setup, step);
    IterateIs(setup, k, turn);
    var e := StepEntered(step.name);
    EmitTells(k, e);
    var k1 := Emit(k, e);
    NothingTold(k1);
    if !Supplied(step, k.state) {
    } else if !Permitted(step, k.state) {
      GateLoose(setup, o, k, step);
      AskTells(setup, o, k1, step.name, payload);
      StopsTell(k1, "", step.name, payload);
    } else if turn.denied.Some? {
      GateLoose(setup, o, k, step);
      var k2 := Emit(k1, PolicyDenied(step.name));
      EmitTells(k1, PolicyDenied(step.name));
      LooseEmit(setup, o, k1, PolicyDenied(step.name));
      FailTells(setup, o, k2, turn.denied.value);
      StopsTell(k2, turn.denied.value, "", Null);
      TellsBoth(k1, k2, Iterate(setup, k, turn), PolicyDenied(step.name), RunFailed);
    } else if !turn.outcome.Finished? || Strays(step, turn.outcome) {
      StoppedTold(setup, o, k, step, turn);
    } else {
      AttemptExecutes(setup, k, step, payload, turn);
      ExecuteIs(setup, k1, step, payload, turn);
      var k2 := Emit(k1, ExecutionStarted(step.name));
      EmitTells(k1, ExecutionStarted(step.name));
      FinishTerms(setup, k.state, step, turn.outcome);
      var k3 := Emit(k2, ExecutionCompleted(step.name));
      EmitTells(k2, ExecutionCompleted(step.name));
      TellsBoth(k1, k2, k3, ExecutionStarted(step.name), ExecutionCompleted(step.name));
      FinishedTold(setup, o, k, k3, step, turn);
      RanTold(setup, k1, k3, Iterate(setup, k, turn), step, turn.outcome);
    }
  }

  lemma GateLoose(setup: Setup, o: Origin, k: Kernel, step: Step)
    requires Facing(setup, o, k, step)
    ensures Loose(setup, o, Emit(k, StepEntered(step.name)))
  {
    hide Accepted, Inv, Loose, Emit, Entering, TokensOk, Walkable;
    LoopIsLoose(setup, o, k);
    LooseEmit(setup, o, k, StepEntered(step.name));
  }

  // ---- resuming ----

  lemma DecisionTells(k: Kernel, payload: ResumePayload)
    requires k.state.pendingApproval.Some? && !payload.Answer?
    ensures ResumeApproval(k, payload).Success? ==> Tells(k, ResumeApproval(k, payload).value,
      if payload.Approve? then [ApprovalGranted(k.state.currentStep)]
      else [ApprovalRejected(k.state.currentStep), RunFailed])
  {
    hide Save, FailRun, Reported, Emit;
    EmitTells(k, ApprovalGranted(k.state.currentStep));
    EmitTells(k, ApprovalRejected(k.state.currentStep));
    if payload.Reject? {
      var k1 := Emit(k, ApprovalRejected(k.state.currentStep));
      var k2 := k1.(state := k.state.(pendingApproval := None));
      StopsTell(k2, payload.reason, "", Null);
      if FailRun(k2, payload.reason).Success? {
        TellsBoth(k, k1, FailRun(k2, payload.reason).value, ApprovalRejected(k.state.currentStep), RunFailed);
      }
    } else {
      SaveTells(Emit(k, ApprovalGranted(k.state.currentStep)), Approved(k.state));
    }
  }

  /** A decision on an approval reports the decision, and the failure after a rejection. */
  lemma DecisionReports(setup: Setup, o: Origin, k: Kernel, payload: ResumePayload, now: int)
    requires Inv(setup, o, k) && k.state.status == WAITING_APPROVAL && !payload.Answer?
    ensures Tells(k, Resume(setup, k, payload, now),
      if payload.Approve? then [ApprovalGranted(k.state.currentStep)]
      else [ApprovalRejected(k.state.currentStep), RunFailed])
  {
    hide Inv, Loose, Save, FailRun, Reported, Emit, ResumeApproval, Entering;
    ResumeApprovalWorks(setup, o, k, payload);
    ApprovalLoose(setup, o, k);
    DecisionTells(k, payload);
  }

  lemma SaveStands(k: Kernel, s: RunState)
    ensures Save(k, s).Success? ==> Save(k, s).value.state.currentStep == s.currentStep
  {
  }

  lemma TransitStands(k: Kernel, step: string, next: string, handoff: Option<string>, payload: Value)
    ensures
      var r := Transit(k, step, next, handoff, payload);
      r.Success? ==> Standing(r.value.state) == next
  {
    hide Save, Read;
    var k1 := if handoff.Some? then Emit(k, HandoffAccepted(handoff.value, next)) else k;
    var k2 := Emit(k1, TransitionChosen(step, next));
    SaveStands(k2, k2.state.(currentStep := None, status := COMPLETED));
    SaveStands(k2, k2.state.(currentStep := Some(next)));
  }

  lemma FollowTells(setup: Setup, k: Kernel, response: Value)
    requires k.state.pendingResume.Some?
    ensures
      var r := FollowContinuation(setup, k, response);
      var c := k.state.pendingResume.value;
      && (r.Success? ==>
            Tells(k, r.value,
              if c.stepName == "" then [] else Leaves(c.stepName, Standing(r.value.state), c.handoff)))
      && (Misrouted(setup, k.state) ==> r.Failure? && Tells(k, r.error, []))
  {
    hide Transit, RouteNext, Find, Reported, Leaves;
    var c := k.state.pendingResume.value;
    var k1 := k.(state := k.state.(pendingResume := None));
    if Find(setup.workflow.steps, c.stepName).Some? {
      var step := Find(setup.workflow.steps, c.stepName).value;
      var r := RouteNext(step, c.output, setup.workflow.steps, c.handoff, c.command.goto, setup.str);
      if r.Success? {
        var payload := if response.Null? then c.output else response;
        TransitTells(k1, c.stepName, r.value, c.handoff, payload);
        TransitStands(k1, c.stepName, r.value, c.handoff, payload);
      }
    }
  }

  /** What an answer reports: that it is too late, or refused; or that the interrupt is resolved, and then the
      transition it was saved for, unless the run is abandoned there or stays at a step named "". */
  ghost predicate AnswerTold(k: Kernel, n: Kernel, payload: ResumePayload, now: int)
    requires payload.Answer?
  {
    var c := k.state.pendingResume;
    var id := payload.interruptId;
    var q := RequestOf(k.desk, k.state.runId, id);
    if !GoesThrough(k, payload, now) then
      Tells(k, n, if q.Some? && q.value.status == Pending && q.value.expiresAt <= now then [InterruptExpired(id)]
        else [InterruptRejectedEpoch(id)])
    else if n.phase.Crashed? || c.None? || c.value.stepName == "" then Tells(k, n, [InterruptResolved(id)])
    else Tells(k, n, [InterruptResolved(id)] + Leaves(c.value.stepName, Standing(n.state), c.value.handoff))
  }

  lemma RefusalTells(setup: Setup, k: Kernel, payload: ResumePayload, now: int)
    requires payload.Answer? && !GoesThrough(k, payload, now) && k.state.pendingInterruptId.Some?
    ensures ResumeInterrupt(setup, k, payload, now).Success?
      && AnswerTold(k, ResumeInterrupt(setup, k, payload, now).value, payload, now)
  {
    hide RequestOf, Saved, Reported, Emit, Save, FollowContinuation, Leaves;
    var c := Settled(k.desk, k.state.runId, payload.interruptId, Some(payload.epoch.GetOr(k.state.epoch)), now);
    EmitTells(k.(desk := c.0), InterruptExpired(payload.interruptId));
    EmitTells(k.(desk := c.0), InterruptRejectedEpoch(payload.interruptId));
  }

  lemma AnswerReports(setup: Setup, o: Origin, k: Kernel, payload: ResumePayload, now: int)
    requires Accepted(setup.workflow) && Inv(setup, o, k) && k.phase.Idle? && k.state.status == WAITING_INTERRUPT
    requires payload.Answer?
    ensures AnswerTold(k, Resume(setup, k, payload, now), payload, now)
  {
    hide Accepted, Inv, Wrecked, Save, SavedKernel, FollowContinuation, Settled, Emit, Reported, GoesThrough, Bumped,
      Linked, Replay, CheckpointsPlaced, OneOpen, Placed, TokensOk, HandoffsOk, AddAll, WalkBase, Misrouted, Leaves,
      RequestOf, AnswerTold;
    InterruptLoose(setup, o, k);
    if GoesThrough(k, payload, now) {
      ResumeInterruptWorks(setup, o, k, payload, now);
      AcceptedTold(setup, o, k, payload, now);
    } else {
      RefusalTells(setup, k, payload, now);
    }
  }

  lemma SavedKeeps(k: Kernel, s: RunState)
    ensures Save(k, s).Success? ==> Save(k, s).value.state.pendingResume == s.pendingResume
  {
  }

  lemma MisroutedSame(setup: Setup, a: RunState, b: RunState)
    requires a.pendingResume == b.pendingResume
    ensures Misrouted(setup, a) == Misrouted(setup, b)
  {
  }

  lemma AcceptedTold(setup: Setup, o: Origin, k: Kernel, payload: ResumePayload, now: int)
    requires Accepted(setup.workflow) && Inv(setup, o, k) && k.phase.Idle? && k.state.status == WAITING_INTERRUPT
    requires payload.Answer? && GoesThrough(k, payload, now)
    ensures AnswerTold(k, Settle(ResumeInterrupt(setup, k, payload, now)), payload, now)
  {
    hide Accepted, Inv, Wrecked, Save, SavedKernel, FollowContinuation, Settled, Emit, Reported, GoesThrough, Bumped,
      Linked, Replay, CheckpointsPlaced, OneOpen, Placed, TokensOk, HandoffsOk, AddAll, WalkBase, Misrouted, Leaves,
      RequestOf;
    InterruptLoose(setup, o, k);
    ResumeInterruptWorks(setup, o, k, payload, now);
    GoesThroughIs(k, payload, now);
    var c := Settled(k.desk, k.state.runId, payload.interruptId, Some(payload.epoch.GetOr(k.state.epoch)), now);
    var k0 := k.(desk := Bumped(c.0, k.state.runId));
    var s := k.state.(pendingInterruptId := None, status := RUNNING);
    SaveIs(k0, s);
    SaveTells(k0, s);
    var k1 := Save(k0, s).value;
    SavedKeeps(k0, s);
    var k2 := Emit(k1, InterruptResolved(payload.interruptId));
    EmitTells(k1, InterruptResolved(payload.interruptId));
    EmitState(k1, InterruptResolved(payload.interruptId));
    FollowTells(setup, k2, payload.response);
    MisroutedSame(setup, k.state, k2.state);
    var r := FollowContinuation(setup, k2, payload.response);
    assert ResumeInterrupt(setup, k, payload, now) == r;
    if r.Success? {
      NotCrashed(setup, o, r.value);
      var leaves := if k.state.pendingResume.value.stepName == "" then []
                    else Leaves(k.state.pendingResume.value.stepName, Standing(r.value.state),
                        k.state.pendingResume.value.handoff);
      TellsMore(k, k2, r.value, [InterruptResolved(payload.interruptId)], leaves);
    } else {
      TellsMore(k, k2, r.error, [InterruptResolved(payload.interruptId)], []);
      assert [InterruptResolved(payload.interruptId)] + [] == [InterruptResolved(payload.interruptId)];
    }
  }

  // ---- beginning ----

  /** A run begins with the report of its start, after that of the checkpoint it is restored from, if any. */
  lemma BirthReports(setup: Setup, b: Birth)
    requires Accepted(setup.workflow)
    ensures setup.workflow.entry.Some?
    ensures Reported(Born(setup, b).trail) ==
      match b
      case Fresh(_, _, _, _) => [RunStarted(setup.workflow.entry)]
      case Restored(snapshot, source, _, _, _) => [CheckpointRestored(source), RunStarted(snapshot.currentStep)]
  {
    hide Save, Closed, Coherent, Distinct, Reported, Emit;
    match b
    case Fresh(r, t, data, n) =>
      var s := BLANK.(runId := r, threadId := t, currentStep := setup.workflow.entry,
          channels := setup.channelDefaults);
      StartsBlank(setup, r, t, data, n);
      SaveTells(Newborn(s, n), s);
      BlankTrail(s, n);
      var k1 := Save(Newborn(s, n), s).value;
      var k2 := Emit(k1, RunStarted(setup.workflow.entry));
      EmitTells(k1, RunStarted(setup.workflow.entry));
      SaveTells(k2, k2.state.(status := RUNNING));
    case Restored(snapshot, source, r, payload, n) =>
      var s := Cleaned(snapshot, r);
      SaveTells(Newborn(s, n), s);
      BlankTrail(s, n);
      RestoresSnapshot(setup, snapshot, source, r, payload, n);
      var k1 := Save(Newborn(s, n), s).value;
      EmitTells(k1, CheckpointRestored(source));
      EmitTells(Emit(k1, CheckpointRestored(source)), RunStarted(s.currentStep));
  }

  lemma BlankTrail(s: RunState, issued: nat)
    ensures Reported(Newborn(s, issued).trail) == []
    ensures Save(Newborn(s, issued), s).Success? <==> Consistent(s)
  {
  }
}
