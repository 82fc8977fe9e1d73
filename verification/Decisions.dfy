/** What each turn and each resume decides, told in terms of the step, the policy, the executor and the
    answer alone. */
module Decisions {
  import opened Prelude
  import opened Values
  import opened RunStates
  import opened RunStore
  import opened Sequences
  import opened Workflows
  import opened Interrupts
  import opened InterruptManager
  import opened Lifecycle
  import opened LifecycleInvariants
  import opened LifecycleResults
  import opened PauseTransparency
  import opened StepEffects
  import ChannelUpdates

  // ---- the terms ----

  /** The step asks for approval: by its own setting or, without one, by its executor's. */
  predicate AsksFirst(step: Step) {
    step.approvalOverride == Some(true) || (step.approvalOverride == None && step.executor.gated)
  }

  /** It need not be asked about, or has been. */
  predicate Permitted(step: Step, s: RunState) {
    AsksFirst(step) ==> step.name in s.approvedSteps
  }

  predicate Supplied(step: Step, s: RunState) {
    forall a | a in step.requiredArtifacts :: a in s.artifacts
  }

  /** An agent that hands off to one it may not hand off to. */
  predicate Strays(step: Step, outcome: Outcome) {
    outcome.Finished? && outcome.handoff.Some? && step.executor.Agent?
      && outcome.handoff.value !in step.executor.handoffs
  }

  /** In the loop, about to take up a step. */
  ghost predicate Facing(setup: Setup, o: Origin, k: Kernel, step: Step) {
    && Accepted(setup.workflow) && InLoop(setup, o, k)
    && step in setup.workflow.steps && k.state.currentStep == Some(step.name)
  }

  /** At rest, in the cache and in the store, with a state of one epoch more; with the walk and the
      grants it had, and with these executions begun. */
  predicate Rests(k: Kernel, n: Kernel, s: RunState, begun: multiset<string>) {
    && n.phase == Idle && n.stored == Some(n.state)
    && n.state == s.(epoch := k.state.epoch + 1, checkpointId := Some(Uuid(k.issued)),
                     parentCheckpointId := k.state.checkpointId)
    && n.sum.walk == k.sum.walk && n.sum.grants == k.sum.grants && n.sum.attempts == k.sum.attempts + begun
  }

  predicate FailedWith(k: Kernel, n: Kernel, error: string, begun: multiset<string>) {
    Rests(k, n, k.state.(status := FAILED, error := Some(error)), begun)
  }

  predicate AskedAbout(k: Kernel, n: Kernel, step: string, payload: Value, begun: multiset<string>) {
    Rests(k, n, k.state.(status := WAITING_APPROVAL, pendingApproval := Some(step), pendingInput := Some(payload)),
        begun)
  }

  lemma TermsAgree(step: Step, s: RunState)
    ensures RequiresApproval(step, s) <==> !Permitted(step, s)
    ensures MissingArtifact(step, s.artifacts) <==> !Supplied(step, s)
  {
  }

  // ---- the two ways to stop ----

  lemma FailTells(setup: Setup, o: Origin, k: Kernel, error: string)
    requires Loose(setup, o, k)
    ensures FailRun(k, error).Success? && FailedWith(k, FailRun(k, error).value, error, multiset{})
  {
    hide Storage, Linked, Path, OneOpen, Replay, Save, AddAll, CheckpointsPlaced, Stamped, TokensOk, WalkBase;
    var s := k.state.(status := FAILED, error := Some(error));
    SaveWorks(setup, o, k, s);
    StampedFields(s, k.issued);
  }

  lemma AskTells(setup: Setup, o: Origin, k: Kernel, step: string, payload: Value)
    requires Loose(setup, o, k)
    ensures AskApproval(k, step, payload).Success?
      && AskedAbout(k, AskApproval(k, step, payload).value, step, payload, multiset{})
  {
    hide Storage, Linked, Path, OneOpen, Replay, Save, AddAll, CheckpointsPlaced, Stamped, TokensOk, WalkBase;
    var s := k.state.(pendingApproval := Some(step), status := WAITING_APPROVAL, pendingInput := Some(payload));
    SaveWorks(setup, o, k, s);
    StampedFields(s, k.issued);
  }

  // ---- executions begun, approvals granted, answers accepted ----

  function Answers(trail: seq<Event>): nat {
    if trail == [] then 0
    else Answers(trail[..|trail| - 1]) + (if trail[|trail| - 1].InterruptResolved? then 1 else 0)
  }

  /** The checkpoints reported, each with its parent, and those a run has. */
  function Written(trail: seq<Event>): seq<(Option<string>, Option<string>)> {
    if trail == [] then []
    else
      var last := trail[|trail| - 1];
      Written(trail[..|trail| - 1]) + (if last.CheckpointWritten? then [(Some(last.id), last.parent)] else [])
  }

  function Links(lineage: seq<RunState>): seq<(Option<string>, Option<string>)> {
    seq(|lineage|, i requires 0 <= i < |lineage| => (lineage[i].checkpointId, lineage[i].parentCheckpointId))
  }

  predicate Agrees(k: Kernel) {
    Written(k.trail) == Links(k.lineage)
  }

  lemma WrittenSnoc(trail: seq<Event>, e: Event)
    ensures Written(trail + [e]) == Written(trail) + (if e.CheckpointWritten? then [(Some(e.id), e.parent)] else [])
  {
    assert (trail + [e])[..|trail|] == trail;
  }

  lemma LinksSnoc(lineage: seq<RunState>, w: RunState)
    ensures Links(lineage + [w]) == Links(lineage) + [(w.checkpointId, w.parentCheckpointId)]
  {
  }

  /** The manager's counter for a run. */
  function Counter(desk: Store, runId: string): int {
    if runId in desk.epochs then desk.epochs[runId] else 0
  }

  /** From one kernel to the next these executions begin, these approvals are granted and so many answers
      are accepted; the manager's counter for the run goes up with the answers; and reports and
      checkpoints still agree. */
  predicate Counted(k: Kernel, n: Kernel, begun: multiset<string>, granted: multiset<Option<string>>, answered: nat) {
    && n.sum.attempts == k.sum.attempts + begun && n.sum.grants == k.sum.grants + granted
    && Answers(n.trail) == Answers(k.trail) + answered && n.state.runId == k.state.runId
    && Counter(n.desk, k.state.runId) == Counter(k.desk, k.state.runId) + answered && (Agrees(k) ==> Agrees(n))
  }

  predicate Uncounted(k: Kernel, n: Kernel) {
    && n.sum.attempts == k.sum.attempts && n.sum.grants == k.sum.grants
    && Answers(n.trail) == Answers(k.trail) && n.state.runId == k.state.runId
    && Counter(n.desk, k.state.runId) == Counter(k.desk, k.state.runId) && (Agrees(k) ==> Agrees(n))
  }

  lemma AnswersSnoc(trail: seq<Event>, e: Event)
    ensures Answers(trail + [e]) == Answers(trail) + (if e.InterruptResolved? then 1 else 0)
  {
    assert (trail + [e])[..|trail|] == trail;
  }

  lemma EmitCounts(k: Kernel, e: Event)
    requires !e.ExecutionStarted? && !e.ApprovalGranted? && !e.InterruptResolved? && !e.CheckpointWritten?
    ensures Uncounted(k, Emit(k, e))
  {
    hide Answers, Written, Links;
    AnswersSnoc(k.trail, e);
    WrittenSnoc(k.trail, e);
  }

  lemma SaveCounts(k: Kernel, s: RunState)
    requires s.runId == k.state.runId
    ensures Uncounted(k, Settle(Save(k, s)))
  {
    hide Answers, Counter, Written, Links;
    var linked := s.(parentCheckpointId := s.checkpointId, checkpointId := None);
    match NextVersion(k.stored, linked, Uuid(k.issued))
    case Failure(_) =>
    case Success(w) =>
      AnswersSnoc(k.trail, CheckpointWritten(w.checkpointId.value, w.parentCheckpointId));
      WrittenSnoc(k.trail, CheckpointWritten(w.checkpointId.value, w.parentCheckpointId));
      LinksSnoc(k.lineage, w);
  }

  lemma StopsCount(k: Kernel, error: string, step: string, payload: Value)
    ensures Uncounted(k, Settle(Complete(k))) && Uncounted(k, Settle(FailRun(k, error)))
    ensures Uncounted(k, Settle(AskApproval(k, step, payload)))
  {
    hide Save, Answers, Counter, Written, Links, Emit;
    StopCounts(k, k.state.(currentStep := None, status := COMPLETED), RunCompleted);
    StopCounts(k, k.state.(status := FAILED, error := Some(error)), RunFailed);
    StopCounts(k, k.state.(pendingApproval := Some(step), status := WAITING_APPROVAL, pendingInput := Some(payload)),
        ApprovalRequested(step));
  }

  lemma StopCounts(k: Kernel, s: RunState, e: Event)
    requires s.runId == k.state.runId && !e.ExecutionStarted? && !e.ApprovalGranted? && !e.InterruptResolved?
      && !e.CheckpointWritten?
    ensures Uncounted(k, Settle(Save(k, s)))
    ensures Save(k, s).Success? ==> Uncounted(k, Emit(Save(k, s).value, e).(phase := Idle))
  {
    hide Save, Answers, Counter, Written, Links;
    SaveCounts(k, s);
    if Save(k, s).Success? {
      EmitCounts(Save(k, s).value, e);
    }
  }

  lemma TransitCounts(k: Kernel, step: string, next: string, handoff: Option<string>, payload: Value)
    ensures Uncounted(k, Settle(Transit(k, step, next, handoff, payload)))
  {
    hide Save, Complete, Emit, Answers, Counter, Written, Links;
    var k1 := if handoff.Some? then Emit(k, HandoffAccepted(handoff.value, next)) else k;
    EmitCounts(k, HandoffAccepted(handoff.GetOr(""), next));
    EmitCounts(k1, TransitionChosen(step, next));
    var k2 := Emit(k1, TransitionChosen(step, next));
    StopsCount(k2, "", "", Null);
    SaveCounts(k2, k2.state.(currentStep := Some(next)));
  }

  lemma RouteCounts(setup: Setup, k: Kernel, step: Step, output: Value, handoff: Option<string>,
                    command: Option<Command>)
    ensures Uncounted(k, Settle(Route(setup, k, step, output, handoff, command)))
  {
    hide Transit, RouteNext, FailRun, Emit, Answers, Counter, Written, Links;
    match RouteNext(step, output, setup.workflow.steps, handoff, GotoOf(command), setup.str)
    case Success(next) => TransitCounts(k, step.name, next, handoff, output);
    case Failure(_) =>
      EmitCounts(k, HandoffRejected(handoff.GetOr("")));
      StopsCount(k, "illegal transition", "", Null);
      StopsCount(Emit(k, HandoffRejected(handoff.GetOr(""))), "illegal transition", "", Null);
  }

  lemma PauseCounts(setup: Setup, k: Kernel, step: Step, output: Value, handoff: Option<string>, command: Command,
                    now: int)
    requires command.interrupt.Some?
    ensures Uncounted(k, Settle(Pause(setup, k, step, output, handoff, command, now)))
  {
    hide Save, Created, Saved, Uuid, Answers, Counter, Written, Links, Emit;
    var ttl := command.interrupt.value.ttlSeconds.GetOr(setup.defaultTtl);
    var c := Created(k.desk, k.state.runId, step.name, ttl, Some(k.state.epoch), Some(setup.maxPending), now,
        Uuid(k.issued));
    CreatedCounter(k.desk, k.state.runId, step.name, ttl, Some(k.state.epoch), Some(setup.maxPending), now,
        Uuid(k.issued));
    if c.1.Success? {
      var k0 := k.(desk := c.0, issued := k.issued + 1);
      var s := k.state.(pendingInterruptId := Some(c.1.value.interruptId), status := WAITING_INTERRUPT,
                        pendingResume := Some(Continuation(step.name, output, handoff, command)));
      SaveCounts(k0, s);
      if Save(k0, s).Success? {
        var k1 := Save(k0, s).value;
        var q := c.1.value;
        SavedCounter(k1.desk, q.(epoch := k1.state.epoch), k.state.runId);
        var k2 := if q.epoch != k1.state.epoch then k1.(desk := Saved(k1.desk, q.(epoch := k1.state.epoch))) else k1;
        EmitCounts(k2, InterruptRequested(step.name, q.interruptId, k1.state.epoch));
      }
    }
  }

  lemma SavedCounter(desk: Store, q: Request, r: string)
    ensures Counter(Saved(desk, q), r) == Counter(desk, r)
  {
  }

  lemma CreatedCounter(desk: Store, r: string, step: string, ttl: int, epoch: Option<int>, limit: Option<int>, now: int,
                       id: string)
    ensures Counter(Created(desk, r, step, ttl, epoch, limit, now, id).0, r) == Counter(desk, r)
  {
    hide PendingIn;
  }

  lemma RecordCounts(setup: Setup, k: Kernel, step: Step, output: Value, command: Option<Command>)
    ensures Uncounted(k, Settle(Record(setup, k, step, output, command)))
  {
    hide Save, ApplyUpdate, Reached, Answers, Counter, Written, Links;
    var update := if command.Some? then command.value.stateUpdate else map[];
    var channels := ApplyUpdate(setup, k.state.channels, update);
    if channels.Some? {
      SaveCounts(k, Recorded(k.state, step, output, channels.value));
    }
  }

  lemma FinishCounts(setup: Setup, k: Kernel, step: Step, out: Outcome, now: int)
    requires out.Finished?
    ensures Uncounted(k, Settle(Finish(setup, k, step, out, now)))
  {
    hide Record, Pause, Route, Answers, Counter, Written, Links;
    var output := OutputOf(out.output, out.command);
    RecordCounts(setup, k, step, output, out.command);
    var r := Record(setup, k, step, output, out.command);
    if r.Success? {
      if out.command.Some? && out.command.value.interrupt.Some? {
        PauseCounts(setup, r.value, step, output, out.handoff, out.command.value, now);
      } else {
        RouteCounts(setup, r.value, step, output, out.handoff, out.command);
      }
    }
  }

  lemma StartedCounts(k: Kernel, step: string)
    ensures Counted(k, Emit(k, ExecutionStarted(step)), multiset{step}, multiset{}, 0)
  {
    hide Answers, Counter, Written, Links;
    AnswersSnoc(k.trail, ExecutionStarted(step));
    WrittenSnoc(k.trail, ExecutionStarted(step));
  }

  lemma ResolvedCounts(k: Kernel, id: string)
    ensures
      var n := Emit(k, InterruptResolved(id));
      && n.sum.attempts == k.sum.attempts && n.sum.grants == k.sum.grants && n.state == k.state && n.desk == k.desk
      && Answers(n.trail) == Answers(k.trail) + 1 && (Agrees(k) ==> Agrees(n))
  {
    hide Answers, Counter, Written, Links;
    AnswersSnoc(k.trail, InterruptResolved(id));
    WrittenSnoc(k.trail, InterruptResolved(id));
  }

  lemma ExecuteCounts(setup: Setup, k: Kernel, step: Step, payload: Value, turn: Turn)
    ensures Counted(k, Settle(Execute(setup, k, step, payload, turn)), multiset{step.name}, multiset{}, 0)
  {
    hide FailRun, AskApproval, Finish, Admitted, Emit, Answers, Counter, Written, Links;
    var k1 := Emit(k, ExecutionStarted(step.name));
    StartedCounts(k, step.name);
    match Admitted(step, turn.outcome)
    case NeedsApproval => StopsCount(k1, "", step.name, payload);
    case Fails(error) => StopsCount(k1, error, step.name, payload);
    case Finished(output, handoff, command) =>
      EmitCounts(k1, ExecutionCompleted(step.name));
      FinishCounts(setup, Emit(k1, ExecutionCompleted(step.name)), step, Finished(output, handoff, command), turn.now);
  }

  // ---- one turn ----

  /** What has been asked about is not executed before it is granted, whatever the policy and the executor say. */
  lemma GateAsks(setup: Setup, o: Origin, k: Kernel, step: Step, turn: Turn)
    requires Facing(setup, o, k, step) && Supplied(step, k.state) && !Permitted(step, k.state)
    ensures AskedAbout(k, Iterate(setup, k, turn), step.name, k.phase.payload, multiset{})
  {
    hide Accepted, Inv, Loose, AskApproval, Emit, Find, MissingArtifact, RequiresApproval, Supplied, Permitted,
      Entering, TokensOk, Walkable;
    TermsAgree(step, k.state);
    StepFound(setup, step);
    LoopIsLoose(setup, o, k);
    var e := StepEntered(step.name);
    LooseEmit(setup, o, k, e);
    EmitState(k, e);
    EmitCounts(k, e);
    AskTells(setup, o, Emit(k, e), step.name, k.phase.payload);
  }

  /** A denial by the policy fails the run with the policy's reason; nothing is executed. */
  lemma DenialFails(setup: Setup, o: Origin, k: Kernel, step: Step, turn: Turn)
    requires Facing(setup, o, k, step) && Supplied(step, k.state) && Permitted(step, k.state) && turn.denied.Some?
    ensures FailedWith(k, Iterate(setup, k, turn), turn.denied.value, multiset{})
  {
    hide Accepted, Inv, Loose, FailRun, Emit, Find, MissingArtifact, RequiresApproval, Supplied, Permitted, Entering,
      TokensOk, Walkable;
    TermsAgree(step, k.state);
    StepFound(setup, step);
    LoopIsLoose(setup, o, k);
    var e, f := StepEntered(step.name), PolicyDenied(step.name);
    LooseEmit(setup, o, k, e);
    EmitState(k, e);
    EmitCounts(k, e);
    var k1 := Emit(k, e);
    LooseEmit(setup, o, k1, f);
    EmitState(k1, f);
    EmitCounts(k1, f);
    FailTells(setup, o, Emit(k1, f), turn.denied.value);
  }

  /** A step whose artifacts are not all there ends the run's advance in an exception; nothing is executed. */
  lemma ShortageBreaks(setup: Setup, o: Origin, k: Kernel, step: Step, turn: Turn)
    requires Facing(setup, o, k, step) && !Supplied(step, k.state)
    ensures
      var n := Iterate(setup, k, turn);
      n.phase == Crashed && n.state == k.state && n.stored == k.stored && n.sum.walk == k.sum.walk && Uncounted(k, n)
  {
    hide Accepted, Inv, Loose, Emit, Find, MissingArtifact, RequiresApproval, Supplied, Permitted, Entering, TokensOk,
      Walkable;
    TermsAgree(step, k.state);
    StepFound(setup, step);
    LoopIsLoose(setup, o, k);
    var e := StepEntered(step.name);
    LooseEmit(setup, o, k, e);
    EmitState(k, e);
    EmitCounts(k, e);
  }

  /** An executor that asks for approval, or fails, or hands off where it may not: the execution has begun,
      and has no other effect. */
  lemma ExecutionStops(setup: Setup, o: Origin, k: Kernel, step: Step, turn: Turn)
    requires Facing(setup, o, k, step) && Supplied(step, k.state) && Permitted(step, k.state) && turn.denied.None?
    ensures
      var n := Iterate(setup, k, turn);
      var begun := multiset{step.name};
      match turn.outcome
      case NeedsApproval => AskedAbout(k, n, step.name, k.phase.payload, begun)
      case Fails(error) => FailedWith(k, n, error, begun)
      case Finished(_, _, _) => Strays(step, turn.outcome) ==> FailedWith(k, n, n.state.error.GetOr(""), begun)
  {
    hide Accepted, Inv, Loose, FailRun, AskApproval, Finish, Emit, Find, MissingArtifact, RequiresApproval, Supplied,
      Permitted, Entering, TokensOk, Walkable;
    TermsAgree(step, k.state);
    StepFound(setup, step);
    Fired(setup, o, k, step);
    var k2 := Entered(k, step.name);
    EnteredCounts(k, step.name);
    AttemptExecutes(setup, k, step, k.phase.payload, turn);
    match turn.outcome
    case NeedsApproval => AskTells(setup, o, k2, step.name, k.phase.payload);
    case Fails(error) => FailTells(setup, o, k2, error);
    case Finished(_, _, _) =>
      if Strays(step, turn.outcome) {
        FailTells(setup, o, k2, Admitted(step, turn.outcome).error);
      }
  }

  lemma EnteredCounts(k: Kernel, step: string)
    ensures Counted(k, Entered(k, step), multiset{step}, multiset{}, 0) && Entered(k, step).issued == k.issued
  {
    hide Answers, Counter, Written, Links;
    AnswersSnoc(k.trail, StepEntered(step));
    AnswersSnoc(k.trail + [StepEntered(step)], ExecutionStarted(step));
    WrittenSnoc(k.trail, StepEntered(step));
    WrittenSnoc(k.trail + [StepEntered(step)], ExecutionStarted(step));
  }

  /** A tool's handoff is dropped. */
  lemma ToolsNeverHandOff(setup: Setup, k: Kernel, step: Step, turn: Turn)
    requires k.phase.Advancing? && k.state.currentStep == Some(step.name)
      && Find(setup.workflow.steps, step.name) == Some(step) && step.executor.Tool? && turn.outcome.Finished?
    ensures Iterate(setup, k, turn) == Iterate(setup, k, turn.(outcome := turn.outcome.(handoff := None)))
  {
    hide FailRun, AskApproval, Finish, Emit, Find, MissingArtifact, RequiresApproval;
  }

  // ---- an execution that finishes ----

  /** What the step shows: the command's output where it has one. */
  function Shown(out: Outcome): Value
    requires out.Finished?
  {
    if out.command.Some? && out.command.value.output.Some? then out.command.value.output.value else out.output
  }

  function Update(out: Outcome): map<string, Value>
    requires out.Finished?
  {
    if out.command.Some? then out.command.value.stateUpdate else map[]
  }

  function Goto(out: Outcome): Option<string>
    requires out.Finished?
  {
    if out.command.Some? then out.command.value.goto else None
  }

  /** Tools do not hand off. */
  function Handoff(step: Step, out: Outcome): Option<string>
    requires out.Finished?
  {
    if step.executor.Tool? then None else out.handoff
  }

  function Held(channels: map<string, Value>, c: string): Value {
    if c in channels then channels[c] else Null
  }

  /** Its reducers do not raise, and the interrupt it asks for, if any, is not over the limit. */
  predicate CanFinish(setup: Setup, s: RunState, out: Outcome)
    requires out.Finished?
  {
    && (forall c | c in Update(out) :: setup.reduce(c, Held(s.channels, c), Update(out)[c]) != None)
    && (out.command.Some? && out.command.value.interrupt.Some? ==> setup.maxPending > 0)
  }

  /** The execution is on record: artifact, channels, completed steps; its token is spent. */
  predicate OnRecord(setup: Setup, before: RunState, after: RunState, step: Step, shown: Value,
                     update: map<string, Value>)
  {
    && after.artifacts
       == before.artifacts[(if step.emittedArtifact.Some? then step.emittedArtifact.value else step.name) := shown]
    && after.completedSteps
       == (if step.name in before.completedSteps then before.completedSteps else before.completedSteps + [step.name])
    && after.channels.Keys == before.channels.Keys + update.Keys
    && (forall c | c in after.channels ::
          if c in update then setup.reduce(c, Held(before.channels, c), update[c]) == Some(after.channels[c])
          else after.channels[c] == before.channels[c])
    && after.approvedSteps == {}
  }

  lemma HandedOnRecorded(setup: Setup, before: RunState, after: RunState, step: Step, shown: Value,
                         command: Option<Command>)
    requires HandedOn(setup, before, after, step, shown, command)
    ensures OnRecord(setup, before, after, step, shown, if command.Some? then command.value.stateUpdate else map[])
  {
    var update := if command.Some? then command.value.stateUpdate else map[];
    assert after.channels == before.channels + Reductions(setup, before.channels, update);
    forall c | c in update ensures setup.reduce(c, Held(before.channels, c), update[c]) == Some(after.channels[c]) {
      assert Get(before.channels, c) == Held(before.channels, c);
    }
  }

  lemma FinishTerms(setup: Setup, s: RunState, step: Step, out: Outcome)
    requires out.Finished? && !Strays(step, out)
    ensures
      var a := Admitted(step, out);
      && a.Finished? && a.handoff == Handoff(step, out) && a.command == out.command
      && OutputOf(a.output, a.command) == Shown(out) && GotoOf(a.command) == Goto(out)
    ensures CannotFinish(setup, s, out.command) <==> !CanFinish(setup, s, out)
  {
    forall c ensures Get(s.channels, c) == Held(s.channels, c) {
    }
  }

  /** Waiting for an answer, with the transition saved, on a request that lives as long as was asked. */
  predicate Awaits(setup: Setup, k: Kernel, n: Kernel, step: Step, out: Outcome, now: int)
    requires out.Finished? && out.command.Some? && out.command.value.interrupt.Some?
  {
    && n.phase == Idle && n.state.status == WAITING_INTERRUPT && n.state.currentStep == k.state.currentStep
    && n.state.pendingResume == Some(Continuation(step.name, Shown(out), Handoff(step, out), out.command.value))
    && n.state.pendingInterruptId.Some?
    && var q := RequestOf(n.desk, n.state.runId, n.state.pendingInterruptId.value);
       var ttl := out.command.value.interrupt.value.ttlSeconds;
       && q.Some? && q.value.status.Pending? && q.value.epoch == n.state.epoch && q.value.createdAt == now
       && q.value.expiresAt == now + (if ttl.Some? then ttl.value else setup.defaultTtl)
  }

  /** The run goes where the output, or the goto, points; where that is nowhere, it fails at the step. */
  ghost predicate GoesOn(setup: Setup, n: Kernel, step: Step, out: Outcome)
    requires out.Finished? && step.transition.Some?
  {
    && (forall next ::
          PointsTo(step.transition.value, Shown(out), Goto(out), setup.str, next)
          && HandoffLands(setup.workflow.steps, next, Handoff(step, out)) ==>
            if next == "__END__" then n.phase == Idle && n.state.status == COMPLETED && n.state.currentStep == None
            else n.phase == Advancing(Shown(out)) && n.state.status == RUNNING && n.state.currentStep == Some(next))
    && ((forall next ::
           !PointsTo(step.transition.value, Shown(out), Goto(out), setup.str, next)
             || !HandoffLands(setup.workflow.steps, next, Handoff(step, out))) ==>
         n.phase == Idle && n.state.status == FAILED && n.state.currentStep == Some(step.name))
  }

  /** An execution that finishes is on record, unless a reducer raises or the interrupt is refused; then the
      run waits for its answer, or goes on. */
  lemma ExecutionFinishes(setup: Setup, o: Origin, k: Kernel, step: Step, turn: Turn)
    requires Facing(setup, o, k, step) && Supplied(step, k.state) && Permitted(step, k.state) && turn.denied.None?
    requires turn.outcome.Finished? && !Strays(step, turn.outcome)
    ensures step.transition.Some?
    ensures
      var out := turn.outcome;
      var n := Iterate(setup, k, turn);
      && Counted(k, n, multiset{step.name}, multiset{}, 0)
      && (n.phase.Crashed? <==> !CanFinish(setup, k.state, out))
      && (CanFinish(setup, k.state, out) ==>
            && OnRecord(setup, k.state, n.state, step, Shown(out), Update(out))
            && n.sum.walk == k.sum.walk + [step.name]
            && (if out.command.Some? && out.command.value.interrupt.Some? then Awaits(setup, k, n, step, out, turn.now)
                else GoesOn(setup, n, step, out)))
  {
    hide Accepted, Inv, Iterate, Find, MissingArtifact, RequiresApproval, Supplied, Permitted, CannotFinish, CanFinish,
      Strays, Admitted, HandedOn, OnRecord, Awaits, GoesOn, Abandons, RouteNext, RequestOf, Execute, Emit, OutputOf,
      GotoOf;
    var out := turn.outcome;
    TermsAgree(step, k.state);
    FinishTerms(setup, k.state, step, out);
    StepFound(setup, step);
    TransitionPresent(setup.workflow, step);
    EmitCounts(k, StepEntered(step.name));
    AttemptExecutes(setup, k, step, k.phase.payload, turn);
    ExecuteCounts(setup, Emit(k, StepEntered(step.name)), step, k.phase.payload, turn);
    IterateIs(setup, k, turn);
    IterateWorks(setup, o, k, turn);
    AbandonsThen(setup, k.state, step, turn);
    if CanFinish(setup, k.state, out) {
      var n := Iterate(setup, k, turn);
      if out.command.Some? && out.command.value.interrupt.Some? {
        LimitThere(setup, k.state, out);
        StepPauses(setup, o, k, step, turn);
        AwaitsIs(setup, k, n, step, out, turn.now);
      } else {
        StepHandsOn(setup, o, k, step, turn);
        GoesOnIs(setup, o, n, step, out);
      }
      HandedOnRecorded(setup, k.state, n.state, step, Shown(out), out.command);
    }
  }

  lemma IterateIs(setup: Setup, k: Kernel, turn: Turn)
    requires k.phase.Advancing?
    ensures Iterate(setup, k, turn) == Settle(Attempt(setup, k, k.phase.payload, turn))
  {
    hide Attempt;
  }

  lemma AbandonsThen(setup: Setup, s: RunState, step: Step, turn: Turn)
    requires s.currentStep == Some(step.name) && Find(setup.workflow.steps, step.name) == Some(step)
    requires !MissingArtifact(step, s.artifacts) && !RequiresApproval(step, s) && turn.denied.None?
    requires Admitted(step, turn.outcome).Finished?
    ensures Abandons(setup, s, turn) <==> CannotFinish(setup, s, Admitted(step, turn.outcome).command)
  {
    hide MissingArtifact, RequiresApproval, CannotFinish, Admitted, Find;
  }

  lemma LimitThere(setup: Setup, s: RunState, out: Outcome)
    requires out.Finished? && out.command.Some? && out.command.value.interrupt.Some? && CanFinish(setup, s, out)
    ensures setup.maxPending > 0
  {
  }

  lemma AwaitsIs(setup: Setup, k: Kernel, n: Kernel, step: Step, out: Outcome, now: int)
    requires out.Finished? && out.command.Some? && out.command.value.interrupt.Some?
    requires n.phase == Idle && n.state.status == WAITING_INTERRUPT && n.state.currentStep == k.state.currentStep
    requires n.state.pendingResume == Some(Continuation(step.name, Shown(out), Handoff(step, out), out.command.value))
    requires n.state.pendingInterruptId.Some?
    requires
      var q := RequestOf(n.desk, n.state.runId, n.state.pendingInterruptId.value);
      && q.Some? && q.value.status.Pending? && q.value.epoch == n.state.epoch && q.value.createdAt == now
      && q.value.expiresAt == now + out.command.value.interrupt.value.ttlSeconds.GetOr(setup.defaultTtl)
    ensures Awaits(setup, k, n, step, out, now)
  {
    hide RequestOf;
  }

  lemma GoesOnIs(setup: Setup, o: Origin, n: Kernel, step: Step, out: Outcome)
    requires Accepted(setup.workflow) && step in setup.workflow.steps && out.Finished? && step.transition.Some?
    requires !n.phase.Crashed? ==> Inv(setup, o, n)
    requires
      match RouteNext(step, Shown(out), setup.workflow.steps, Handoff(step, out), Goto(out), setup.str)
      case Success(next) =>
        if next == END_STEP then Done(n) && n.state.currentStep == None
        else n.phase == Advancing(Shown(out)) && n.state.currentStep == Some(next)
      case Failure(_) => n.phase.Idle? && n.state.status == FAILED && n.state.currentStep == Some(step.name)
    ensures GoesOn(setup, n, step, out)
  {
    hide Accepted, RouteNext, PointsTo, HandoffLands, Inv, Find;
    RoutingStaysInGraph(setup.workflow, step, Shown(out), Handoff(step, out), Goto(out), setup.str);
    var r := RouteNext(step, Shown(out), setup.workflow.steps, Handoff(step, out), Goto(out), setup.str);
    if r.Success? {
      assert PointsTo(step.transition.value, Shown(out), Goto(out), setup.str, r.value);
    }
    if n.phase.Advancing? {
      LoopIsLoose(setup, o, n);
    }
  }

  /** A reducer that raises leaves the run in memory halfway: the channels its update lists before that one are
      updated, nothing is saved, and nothing else of the state changes. */
  lemma ReducerRaises(setup: Setup, o: Origin, k: Kernel, step: Step, turn: Turn, i: nat)
    requires Facing(setup, o, k, step) && Supplied(step, k.state) && Permitted(step, k.state) && turn.denied.None?
    requires turn.outcome.Finished? && !Strays(step, turn.outcome)
    requires exists c | c in Update(turn.outcome) ::
      setup.reduce(c, Held(k.state.channels, c), Update(turn.outcome)[c]) == None
    requires
      var keys := setup.order(Update(turn.outcome));
      && (forall c | c in keys :: c in Update(turn.outcome)) && i < |keys|
      && (forall a, b | 0 <= a < b < |keys| :: keys[a] != keys[b])
    ensures
      var n := Iterate(setup, k, turn);
      var update := Update(turn.outcome);
      var keys := setup.order(update);
      && n.phase == Crashed && n.stored == k.stored && n.lineage == k.lineage
      && n.state == k.state.(channels := n.state.channels)
      && var through :=
           forall j | 0 <= j <= i :: setup.reduce(keys[j], Held(k.state.channels, keys[j]), update[keys[j]]) != None;
         var c := keys[i];
         if through
         then c in n.state.channels
              && setup.reduce(c, Held(k.state.channels, c), update[c]) == Some(n.state.channels[c])
         else (c in n.state.channels <==> c in k.state.channels)
              && (c in n.state.channels ==> n.state.channels[c] == k.state.channels[c])
  {
    hide Accepted, Inv, Find, MissingArtifact, RequiresApproval, Supplied, Permitted, CannotFinish, CanFinish, Strays,
      Admitted, OutputOf, GotoOf, Emit, Execute, Finish, Reached;
    var out := turn.outcome;
    var update := Update(out);
    TermsAgree(step, k.state);
    FinishTerms(setup, k.state, step, out);
    StepFound(setup, step);
    AttemptExecutes(setup, k, step, k.phase.payload, turn);
    EmitState(k, StepEntered(step.name));
    RaisesHalfway(setup, Emit(k, StepEntered(step.name)), step, k.phase.payload, turn);
    IterateIs(setup, k, turn);
    ChannelUpdates.RaisedHalfway(setup, k.state.channels, update, setup.order(update), i);
    forall c ensures Get(k.state.channels, c) == Held(k.state.channels, c) {
    }
  }

  lemma RaisesHalfway(setup: Setup, k: Kernel, step: Step, payload: Value, turn: Turn)
    requires turn.outcome.Finished? && Admitted(step, turn.outcome).Finished?
      && Admitted(step, turn.outcome).command == turn.outcome.command
    requires exists c | c in Update(turn.outcome) ::
      setup.reduce(c, Held(k.state.channels, c), Update(turn.outcome)[c]) == None
    ensures
      var r := Execute(setup, k, step, payload, turn);
      var update := Update(turn.outcome);
      && r.Failure? && r.error.stored == k.stored && r.error.lineage == k.lineage
      && r.error.state
         == k.state.(channels := Reached(setup, k.state.channels, update, setup.order(update)))
  {
    hide Admitted, Reached, Read, Save, Pause, Route;
    var update := Update(turn.outcome);
    var c :| c in update && setup.reduce(c, Held(k.state.channels, c), update[c]) == None;
    assert Get(k.state.channels, c) == Held(k.state.channels, c);
  }

  // ---- resuming ----

  /** A rejection fails the run with the reason given: no approval is granted, nothing is executed, no
      token is held that was not held before. */
  lemma RejectionFails(setup: Setup, o: Origin, k: Kernel, reason: string, now: int)
    requires Inv(setup, o, k) && k.phase.Idle? && k.state.status == WAITING_APPROVAL
    ensures Rests(k, Resume(setup, k, Reject(reason), now),
      k.state.(pendingApproval := None, status := FAILED, error := Some(reason)), multiset{})
  {
    hide Inv, Loose, FailRun, Emit, Entering, Leaving;
    ApprovalLoose(setup, o, k);
    var e := ApprovalRejected(k.state.currentStep);
    LooseEmit(setup, o, k, e);
    EmitState(k, e);
    EmitCounts(k, e);
    RejectLoose(setup, o, k);
    FailTells(setup, o, Emit(k, e).(state := k.state.(pendingApproval := None)), reason);
  }

  /** An approval gives the run its token and lets it go on, on the payload that had to wait. */
  lemma ApprovalOpens(setup: Setup, o: Origin, k: Kernel, now: int)
    requires Inv(setup, o, k) && k.phase.Idle? && k.state.status == WAITING_APPROVAL
    ensures k.state.currentStep.Some?
    ensures
      var n := Resume(setup, k, Approve, now);
      && n.phase == Advancing(if k.state.pendingInput.Some? then k.state.pendingInput.value else Null)
      && n.stored == Some(n.state) && n.sum.walk == k.sum.walk
      && n.state == k.state.(approvedSteps := k.state.approvedSteps + {k.state.currentStep.value}, status := RUNNING,
                             pendingApproval := None, pendingInput := None, epoch := k.state.epoch + 1,
                             checkpointId := Some(Uuid(k.issued)), parentCheckpointId := k.state.checkpointId)
      && n.sum.attempts == k.sum.attempts && n.sum.grants == k.sum.grants + multiset{k.state.currentStep}
  {
    hide Inv, Loose, Savable, Story, OneOpen, Storage, Save, Replay, CheckpointsPlaced, Stamped, Entering;
    ApprovalLoose(setup, o, k);
    GrantStory(setup, o, k);
    var k1 := Emit(k, ApprovalGranted(k.state.currentStep));
    SaveWorks(setup, o, k1, Approved(k.state));
    StampedFields(Approved(k.state), k.issued);
  }

  /** A payload of the wrong kind, and a run that is not waiting, change nothing. */
  lemma WrongPayloadIgnored(setup: Setup, k: Kernel, payload: ResumePayload, now: int)
    ensures k.state.status == WAITING_APPROVAL && payload.Answer? ==> Resume(setup, k, payload, now) == k
    ensures k.state.status == WAITING_INTERRUPT && !payload.Answer? ==> Resume(setup, k, payload, now) == k
    ensures k.state.status != WAITING_APPROVAL && k.state.status != WAITING_INTERRUPT ==>
      Resume(setup, k, payload, now) == k
  {
    hide Save, FailRun;
  }

  lemma FollowCounts(setup: Setup, k: Kernel, response: Value)
    ensures Uncounted(k, Settle(FollowContinuation(setup, k, response)))
  {
    hide Transit, RouteNext, Find, Answers, Counter, Written, Links;
    var c := k.state.pendingResume;
    var k1 := k.(state := k.state.(pendingResume := None));
    if c.Some? && Find(setup.workflow.steps, c.value.stepName).Some? {
      var step := Find(setup.workflow.steps, c.value.stepName).value;
      var r := RouteNext(step, c.value.output, setup.workflow.steps, c.value.handoff, c.value.command.goto, setup.str);
      if r.Success? {
        TransitCounts(k1, c.value.stepName, r.value, c.value.handoff,
            if response.Null? then c.value.output else response);
      }
    }
  }

  /** An answer goes through: the request it names is pending, has not expired and carries the epoch given,
      or the run's where none is given. */
  predicate GoesThrough(k: Kernel, payload: ResumePayload, now: int) {
    && payload.Answer?
    && var q := RequestOf(k.desk, k.state.runId, payload.interruptId);
       && q.Some? && q.value.status == Pending && now < q.value.expiresAt
       && q.value.epoch == (if payload.epoch.Some? then payload.epoch.value else k.state.epoch)
  }

  lemma BumpedCounter(desk: Store, r: string)
    ensures Counter(Bumped(desk, r), r) == Counter(desk, r) + 1
  {
  }

  lemma SettledCounter(desk: Store, r: string, i: string, epoch: Option<int>, now: int)
    ensures Counter(Settled(desk, r, i, epoch, now).0, r) == Counter(desk, r)
  {
    hide RequestOf;
  }

  lemma GoesThroughIs(k: Kernel, payload: ResumePayload, now: int)
    requires payload.Answer?
    ensures GoesThrough(k, payload, now) <==>
      Settled(k.desk, k.state.runId, payload.interruptId, Some(payload.epoch.GetOr(k.state.epoch)), now).1.Success?
  {
    hide RequestOf, Saved;
  }

  lemma AcceptedCounts(setup: Setup, k: Kernel, s: RunState, id: string, response: Value)
    requires Consistent(s) && k.stored.Some? && k.stored.value.epoch == s.epoch && s.runId == k.state.runId
    ensures Save(k, s).Success?
    ensures
      var n := Settle(FollowContinuation(setup, Emit(Save(k, s).value, InterruptResolved(id)), response));
      && n.sum.attempts == k.sum.attempts && n.sum.grants == k.sum.grants && n.state.runId == k.state.runId
      && Answers(n.trail) == Answers(k.trail) + 1 && (Agrees(k) ==> Agrees(n))
      && Counter(n.desk, k.state.runId) == Counter(k.desk, k.state.runId)
  {
    hide Save, SavedKernel, FollowContinuation, Emit, Answers, Counter, Written, Links;
    SaveIs(k, s);
    SaveCounts(k, s);
    ResolvedCounts(Save(k, s).value, id);
    FollowCounts(setup, Emit(Save(k, s).value, InterruptResolved(id)), response);
  }

  lemma AnswerCounts(setup: Setup, o: Origin, k: Kernel, payload: ResumePayload, now: int)
    requires Inv(setup, o, k) && k.state.status == WAITING_INTERRUPT
    ensures Counted(k, Settle(ResumeInterrupt(setup, k, payload, now)), multiset{}, multiset{},
      if GoesThrough(k, payload, now) then 1 else 0)
  {
    hide Inv, Save, SavedKernel, FollowContinuation, Settled, Emit, Answers, Counter, Written, Links, GoesThrough,
      Bumped, Linked, Replay, CheckpointsPlaced, OneOpen, Placed, TokensOk, HandoffsOk, AddAll, WalkBase;
    InterruptLoose(setup, o, k);
    if payload.Answer? {
      GoesThroughIs(k, payload, now);
      var given := payload.epoch.GetOr(k.state.epoch);
      var c := Settled(k.desk, k.state.runId, payload.interruptId, Some(given), now);
      SettledCounter(k.desk, k.state.runId, payload.interruptId, Some(given), now);
      EmitCounts(k.(desk := c.0), InterruptExpired(payload.interruptId));
      EmitCounts(k.(desk := c.0), InterruptRejectedEpoch(payload.interruptId));
      if c.1.Success? {
        BumpedCounter(c.0, k.state.runId);
        AcceptedCounts(setup, k.(desk := Bumped(c.0, k.state.runId)),
            k.state.(pendingInterruptId := None, status := RUNNING), payload.interruptId, payload.response);
      }
    } else {
      NotGoing(k, payload, now);
    }
  }

  lemma NotGoing(k: Kernel, payload: ResumePayload, now: int)
    requires !payload.Answer?
    ensures !GoesThrough(k, payload, now)
  {
  }

  lemma ApprovalCounts(k: Kernel, payload: ResumePayload)
    requires k.state.pendingApproval.Some?
    ensures Counted(k, Settle(ResumeApproval(k, payload)), multiset{},
      if payload.Approve? then multiset{k.state.currentStep} else multiset{}, 0)
  {
    hide Save, Answers, Counter, Written, Links, FailRun;
    if payload.Reject? {
      EmitCounts(k, ApprovalRejected(k.state.currentStep));
      StopsCount(Emit(k, ApprovalRejected(k.state.currentStep)).(state := k.state.(pendingApproval := None)),
          payload.reason, "", Null);
    } else if payload.Approve? {
      AnswersSnoc(k.trail, ApprovalGranted(k.state.currentStep));
      WrittenSnoc(k.trail, ApprovalGranted(k.state.currentStep));
      SaveCounts(Emit(k, ApprovalGranted(k.state.currentStep)), Approved(k.state));
    }
  }
}
