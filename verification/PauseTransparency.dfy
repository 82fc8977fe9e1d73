/** Approval gates and interrupts are transparent: a run whose gates are all granted and whose interrupts
    are all answered with None before they expire completes exactly when the run without them does, with
    the same result. */
module PauseTransparency {
  import opened Prelude
  import opened Values
  import opened RunStates
  import opened Sequences
  import opened Workflows
  import opened Interrupts
  import opened InterruptManager
  import opened Lifecycle
  import opened LifecycleInvariants

  /** Deterministic executors: they see the step, the payload, the artifacts and the channels. */
  type Executors = (string, Value, map<string, Value>, map<string, Value>) -> Outcome

  // ---- the class without its pauses ----

  function StripStep(s: Step): Step {
    s.(approvalOverride := Some(false))
  }

  function StripSteps(steps: seq<Step>): seq<Step> {
    if steps == [] then [] else [StripStep(steps[0])] + StripSteps(steps[1..])
  }

  function Strip(setup: Setup): Setup {
    setup.(workflow := setup.workflow.(steps := StripSteps(setup.workflow.steps)))
  }

  function StripCommand(c: Option<Command>): Option<Command> {
    if c.Some? then Some(c.value.(interrupt := None)) else None
  }

  function StripOutcome(out: Outcome): Outcome {
    if out.Finished? then out.(command := StripCommand(out.command)) else out
  }

  function StripExecutors(exec: Executors): Executors {
    (step, payload, artifacts, channels) => StripOutcome(exec(step, payload, artifacts, channels))
  }

  predicate Interrupting(out: Outcome) {
    out.Finished? && out.command.Some? && out.command.value.interrupt.Some?
  }

  /** No step of the class asks for an interrupt that is refused under limit zero, or whose transition is not followed
      because the step is named "". */
  ghost predicate Sparing(setup: Setup, exec: Executors) {
    forall step, payload, artifacts, channels | step in Names(setup.workflow.steps) ::
      Interrupting(exec(step, payload, artifacts, channels)) ==> step != "" && setup.maxPending > 0
  }

  // ---- driving a run ----

  /** When a move is made, and how many uuids other runs have drawn since the one before. */
  datatype Tick = Tick(now: int, drawn: nat)

  type Ticks = nat -> Tick

  function Drawn(k: Kernel, drawn: nat): Kernel {
    k.(issued := k.issued + drawn)
  }

  /** One move: the executors run, a gate is granted, an interrupt is answered with None. */
  function Move(setup: Setup, exec: Executors, now: int, k: Kernel): Kernel {
    match k.phase
    case Advancing(payload) =>
      Iterate(setup, k,
          Turn(None, exec(k.state.currentStep.GetOr(""), payload, k.state.artifacts, k.state.channels), now))
    case Idle =>
      if k.state.status == WAITING_APPROVAL then Resume(setup, k, Approve, now)
      else if k.state.status == WAITING_INTERRUPT
      then Resume(setup, k, Answer(k.state.pendingInterruptId.GetOr(""), Null, None), now)
      else k
    case Crashed => k
  }

  function Poke(setup: Setup, exec: Executors, tick: Tick, k: Kernel): Kernel {
    Move(setup, exec, tick.now, Drawn(k, tick.drawn))
  }

  /** n moves, the first of them at tick `at`. */
  function Drive(setup: Setup, exec: Executors, ticks: Ticks, k: Kernel, at: nat, n: nat): Kernel
    decreases n
  {
    if n == 0 then k else Drive(setup, exec, ticks, Poke(setup, exec, ticks(at), k), at + 1, n - 1)
  }

  predicate Done(k: Kernel) {
    k.phase.Idle? && k.state.status == COMPLETED
  }

  /** The run's open request, if it has one, has not expired at this time. */
  predicate OnTime(now: int, k: Kernel) {
    k.phase.Idle? && k.state.status == WAITING_INTERRUPT && k.state.pendingInterruptId.Some? ==>
      var q := RequestOf(k.desk, k.state.runId, k.state.pendingInterruptId.value);
      q.Some? ==> q.value.expiresAt > now
  }

  /** Every interrupt of the driven run is answered before it expires, however late. */
  ghost predicate Timely(setup: Setup, exec: Executors, ticks: Ticks, k: Kernel, at: nat) {
    forall n: nat :: OnTimeAt(setup, exec, ticks, k, at, n)
  }

  predicate OnTimeAt(setup: Setup, exec: Executors, ticks: Ticks, k: Kernel, at: nat, n: nat) {
    OnTime(ticks(at + n).now, Drive(setup, exec, ticks, k, at, n))
  }

  /** What a run has to show: its walk, its completed steps, its artifacts and channels. */
  predicate SameView(a: Kernel, b: Kernel) {
    && a.sum.walk == b.sum.walk && a.state.completedSteps == b.state.completedSteps
    && a.state.artifacts == b.state.artifacts && a.state.channels == b.state.channels
  }

  predicate Twin(a: Kernel, b: Kernel) {
    SameView(a, b) && a.state.currentStep == b.state.currentStep
  }

  // ---- stripping changes no route ----

  lemma {:induction false} StripAt(steps: seq<Step>)
    ensures |StripSteps(steps)| == |steps|
    ensures forall i | 0 <= i < |steps| :: StripSteps(steps)[i] == StripStep(steps[i])
  {
    hide StripStep;
    if steps != [] {
      StripAt(steps[1..]);
    }
  }

  lemma StripNames(steps: seq<Step>)
    ensures Names(StripSteps(steps)) == Names(steps)
  {
    StripAt(steps);
    var stripped := StripSteps(steps);
    forall n | n in Names(steps) ensures n in Names(stripped) {
      var i :| 0 <= i < |steps| && steps[i].name == n;
      assert stripped[i] in stripped;
    }
    forall n | n in Names(stripped) ensures n in Names(steps) {
      var i :| 0 <= i < |stripped| && stripped[i].name == n;
      assert steps[i] in steps;
    }
  }

  lemma {:induction false} StripFind(steps: seq<Step>, name: string)
    ensures Find(StripSteps(steps), name)
      == (if Find(steps, name).Some? then Some(StripStep(Find(steps, name).value)) else None)
  {
    hide Names;
    if steps != [] {
      StripFind(steps[1..], name);
      var rest := StripSteps(steps[1..]);
      assert ([StripStep(steps[0])] + rest)[1..] == rest;
    }
  }

  lemma StripFinds(steps: seq<Step>, name: string)
    ensures Names(StripSteps(steps)) == Names(steps) && |StripSteps(steps)| == |steps|
    ensures Find(StripSteps(steps), name)
      == (if Find(steps, name).Some? then Some(StripStep(Find(steps, name).value)) else None)
    ensures forall i | 0 <= i < |steps| :: StripSteps(steps)[i] == StripStep(steps[i])
  {
    hide Names, Find, StripSteps, StripStep;
    StripAt(steps);
    StripNames(steps);
    StripFind(steps, name);
  }

  lemma StripAccepted(setup: Setup)
    requires Accepted(setup.workflow)
    ensures Accepted(Strip(setup).workflow)
  {
    hide Closed, Coherent, Distinct;
    StripFinds(setup.workflow.steps, "");
    StripClosed(setup.workflow.steps);
    StripDistinct(setup.workflow.steps);
  }

  lemma StripDistinct(steps: seq<Step>)
    requires Distinct(steps)
    ensures Distinct(StripSteps(steps))
  {
    StripFinds(steps, "");
  }

  lemma StripClosed(steps: seq<Step>)
    requires Closed(steps) && forall s | s in steps :: Coherent(s)
    ensures Closed(StripSteps(steps)) && forall s | s in StripSteps(steps) :: Coherent(s)
  {
    hide Names, Targets;
    StripFinds(steps, "");
    var stripped := StripSteps(steps);
    forall s | s in stripped ensures exists t :: t in steps && s == StripStep(t) {
      var i :| 0 <= i < |stripped| && stripped[i] == s;
      assert steps[i] in steps;
    }
  }

  lemma RouteStripped(setup: Setup, step: Step, output: Value, handoff: Option<string>, goto: Option<string>)
    ensures RouteNext(StripStep(step), output, Strip(setup).workflow.steps, handoff, goto, setup.str)
         == RouteNext(step, output, setup.workflow.steps, handoff, goto, setup.str)
  {
    hide Find, Names;
    forall next ensures CheckHandoff(Strip(setup).workflow.steps, next, handoff)
      == CheckHandoff(setup.workflow.steps, next, handoff) {
      CheckStripped(setup.workflow.steps, next, handoff);
    }
  }

  lemma CheckStripped(steps: seq<Step>, next: string, handoff: Option<string>)
    ensures CheckHandoff(StripSteps(steps), next, handoff) == CheckHandoff(steps, next, handoff)
  {
    hide Names;
    StripFinds(steps, next);
  }

  lemma AdmittedStripped(step: Step, out: Outcome)
    ensures Admitted(StripStep(step), StripOutcome(out)) == StripOutcome(Admitted(step, out))
  {
  }

  // ---- what each operation leaves to be seen ----

  lemma AskView(setup: Setup, o: Origin, k: Kernel, step: string, payload: Value)
    requires Loose(setup, o, k) && k.sum.step == k.state.currentStep == Some(step)
    ensures AskApproval(k, step, payload).Success?
    ensures
      var n := AskApproval(k, step, payload).value;
      && Twin(n, k) && n.phase == Idle && n.state.status == WAITING_APPROVAL && n.state.pendingInput == Some(payload)
      && n.state.approvedSteps == k.state.approvedSteps
  {
    hide Storage, Linked, Path, OneOpen, Replay, Save, AddAll, CheckpointsPlaced, Stamped, TokensOk, WalkBase;
    var s := k.state.(pendingApproval := Some(step), status := WAITING_APPROVAL, pendingInput := Some(payload));
    SaveWorks(setup, o, k, s);
    StampedFields(s, k.issued);
  }

  lemma ApproveView(setup: Setup, o: Origin, k: Kernel)
    requires Inv(setup, o, k) && k.state.status == WAITING_APPROVAL
    ensures ResumeApproval(k, Approve).Success?
    ensures
      var n := ResumeApproval(k, Approve).value;
      && Twin(n, k) && n.phase == Advancing(k.state.pendingInput.GetOr(Null))
      && n.state.approvedSteps == k.state.approvedSteps + Here(k.state.currentStep)
  {
    hide Storage, Linked, Path, OneOpen, Replay, Save, AddAll, CheckpointsPlaced, Stamped, TokensOk, WalkBase, Inv,
      Savable, Story;
    GrantStory(setup, o, k);
    ApprovalLoose(setup, o, k);
    var k1 := Emit(k, ApprovalGranted(k.state.currentStep));
    SaveWorks(setup, o, k1, Approved(k.state));
    StampedFields(Approved(k.state), k.issued);
  }

  lemma RecordView(setup: Setup, o: Origin, k: Kernel, step: Step, output: Value, command: Option<Command>)
    requires Unrecorded(setup, o, k) && k.state.currentStep == Some(step.name) && k.state.status == RUNNING
    requires Record(setup, k, step, output, command).Success?
    ensures
      var update := if command.Some? then command.value.stateUpdate else map[];
      var channels := ApplyUpdate(setup, k.state.channels, update);
      var n := Record(setup, k, step, output, command).value;
      && channels.Some? && n.state.channels == channels.value
      && n.state.artifacts == k.state.artifacts[step.emittedArtifact.GetOr(step.name) := output]
      && n.state.completedSteps == AddOnce(k.state.completedSteps, step.name)
      && n.state.currentStep == k.state.currentStep && n.sum == k.sum
  {
    hide Storage, Linked, OneOpen, Replay, CheckpointsPlaced, Save, AddAll, WalkBase, Names, TokensOk, Stamped,
      ApplyUpdate;
    var update := if command.Some? then command.value.stateUpdate else map[];
    var channels := ApplyUpdate(setup, k.state.channels, update);
    if channels.Some? {
      var s := Recorded(k.state, step, output, channels.value);
      SaveWorks(setup, o, k, s);
      StampedFields(s, k.issued);
    }
  }

  /** Where a transition leads, and that nothing else to be seen changes. */
  lemma TransitView(setup: Setup, o: Origin, k: Kernel, step: string, next: string, handoff: Option<string>,
                    payload: Value)
    requires Loose(setup, o, k) && k.sum.status == k.state.status == RUNNING && k.state.approvedSteps == {}
    requires next == END_STEP || next in Names(setup.workflow.steps)
    requires Leaving(k.sum.walk, Some(step))
    requires handoff.Some? ==> HandoverOk(setup.workflow.steps, Handover(Some(step), handoff.value, next))
    ensures Transit(k, step, next, handoff, payload).Success?
    ensures
      var n := Transit(k, step, next, handoff, payload).value;
      && n.sum.walk == k.sum.walk && n.state.completedSteps == k.state.completedSteps
      && n.state.artifacts == k.state.artifacts && n.state.channels == k.state.channels && n.state.approvedSteps == {}
      && (if next == END_STEP then Done(n) && n.state.currentStep == None
          else n.phase == Advancing(payload) && n.state.currentStep == Some(next))
  {
    hide Loose, Emit, Save, Names, Storage, Stamped, Read, Replay;
    var k1 := if handoff.Some? then Emit(k, HandoffAccepted(handoff.value, next)) else k;
    if handoff.Some? {
      LooseEmit(setup, o, k, HandoffAccepted(handoff.value, next));
      EmitState(k, HandoffAccepted(handoff.value, next));
    }
    var e := TransitionChosen(step, next);
    LooseEmit(setup, o, k1, e);
    EmitState(k1, e);
    var k2 := Emit(k1, e);
    var s := if next == END_STEP then k2.state.(currentStep := None, status := COMPLETED)
             else k2.state.(currentStep := Some(next));
    LooseSavable(setup, o, k2, s);
    SaveWorks(setup, o, k2, s);
    StampedFields(s, k2.issued);
    EmitState(Save(k2, s).value, RunCompleted);
    CompletedWalk(Save(k2, s).value.sum);
  }

  lemma CompletedWalk(sum: Summary)
    ensures Read(sum, RunCompleted).walk == sum.walk
  {
  }

  lemma LooseSavable(setup: Setup, o: Origin, k: Kernel, s: RunState)
    requires Loose(setup, o, k) && k.state.approvedSteps == {} && k.state.status == RUNNING
    requires || s == k.state.(currentStep := None, status := COMPLETED)
             || (s.currentStep.Some? && s.currentStep.value in Names(setup.workflow.steps)
                 && s == k.state.(currentStep := s.currentStep))
    ensures Savable(setup, o, k, s)
  {
    hide Storage, Linked, OneOpen, Replay, AddAll, CheckpointsPlaced, TokensOk, WalkBase;
  }

  /** A paused run keeps what it has to show; its request is live for as long as its ttl says. */
  lemma PauseView(setup: Setup, o: Origin, k: Kernel, step: Step, output: Value, handoff: Option<string>,
                  command: Command, now: int)
    requires Loose(setup, o, k) && k.state.status == RUNNING && k.state.approvedSteps == {} && command.interrupt.Some?
    requires k.state.currentStep == k.sum.step == Some(step.name) && setup.maxPending > 0
    requires Leaving(k.sum.walk, Some(step.name))
    requires Allowlisted(setup.workflow.steps, step.name, handoff)
    ensures Pause(setup, k, step, output, handoff, command, now).Success?
    ensures
      var n := Pause(setup, k, step, output, handoff, command, now).value;
      && Twin(n, k) && n.phase == Idle && n.state.status == WAITING_INTERRUPT
      && n.state.pendingResume == Some(Continuation(step.name, output, handoff, command))
      && n.state.pendingInterruptId == Some(Uuid(k.issued))
      && RequestOf(n.desk, n.state.runId, Uuid(k.issued)) ==
           Some(Request(Uuid(k.issued), n.state.runId, step.name, n.state.epoch, now,
                        now + command.interrupt.value.ttlSeconds.GetOr(setup.defaultTtl), Pending))
  {
    hide Inv, Save, Created, Saved, Stamped, SameRecord, Placed, Story, OneOpen, Leaving, RequestOf, Uuid, Consistent,
      Linked, Replay, AddAll, TokensOk, WalkBase, CheckpointsPlaced;
    var ttl := command.interrupt.value.ttlSeconds.GetOr(setup.defaultTtl);
    var st := k.state;
    PauseWorks(setup, o, k, step, output, handoff, command, now);
    DeskOpens(k.desk, st.runId, step.name, ttl, st.epoch, k.issued, setup.maxPending, now, st.epoch + 1);
    var c := Created(k.desk, st.runId, step.name, ttl, Some(st.epoch), Some(setup.maxPending), now, Uuid(k.issued));
    var q, later := c.1.value, Continuation(step.name, output, handoff, command);
    PauseStory(setup, o, k, step.name, Uuid(k.issued), st.epoch + 1, later);
    var s := Waiting(st, Uuid(k.issued), later);
    var k0 := k.(desk := c.0, issued := k.issued + 1);
    PauseSavable(setup, o, k, k0, s);
    SaveWorks(setup, o, k0, s);
    StampedFields(s, k0.issued);
    PauseIs(setup, k, step, output, handoff, command, now, c.0, q);
    SavedLookup(c.0, q.(epoch := st.epoch + 1), st.runId, Uuid(k.issued));
  }

  lemma PauseSavable(setup: Setup, o: Origin, k: Kernel, k0: Kernel, s: RunState)
    requires Loose(setup, o, k) && k0 == k.(desk := k0.desk, issued := k.issued + 1)
    requires Placed(setup, s) && SameRecord(s, k.state) && s.status == WAITING_INTERRUPT && s.pendingInterruptId.Some?
    ensures Savable(setup, o, k0, s)
  {
    hide Linked, OneOpen, Replay, AddAll, CheckpointsPlaced, TokensOk, WalkBase, Placed;
    LinkedLater(k.lineage, o.source, k.issued, k.issued + 1);
  }

  /** An answer to a live request goes through, and nothing to be seen changes but the pause. */
  lemma AnswerView(setup: Setup, o: Origin, k: Kernel, response: Value, now: int) returns (n: Kernel)
    requires Inv(setup, o, k) && k.state.status == WAITING_INTERRUPT && k.state.pendingInterruptId.Some?
    requires RequestOf(k.desk, k.state.runId, k.state.pendingInterruptId.value).Some?
    requires
      var q := RequestOf(k.desk, k.state.runId, k.state.pendingInterruptId.value).value;
      q.status.Pending? && q.expiresAt > now && q.epoch == k.state.epoch
    ensures ResumeInterrupt(setup, k, Answer(k.state.pendingInterruptId.value, response, None), now)
      == FollowContinuation(setup, n, response)
    ensures Loose(setup, o, n) && n.sum.status == n.state.status == RUNNING && n.sum.step == n.state.currentStep
    ensures n.state.approvedSteps == {} && n.stored == Some(n.state) && n.state.pendingResume == k.state.pendingResume
    ensures Twin(n, k)
  {
    hide Inv, Save, Saved, OneOpen, RequestOf, Linked, Replay, AddAll, TokensOk, WalkBase, CheckpointsPlaced,
      FollowContinuation, Bumped, Loose, Stamped;
    InterruptLoose(setup, o, k);
    var open := k.state.pendingInterruptId.value;
    DeskSettles(k.desk, k.state.runId, k.state.epoch, k.issued, open, open, k.state.epoch, now);
    var c := Settled(k.desk, k.state.runId, open, Some(k.state.epoch), now);
    DeskBumped(c.0, k.state.runId, k.state.epoch, k.issued, None);
    var desk := Bumped(c.0, k.state.runId);
    AcceptedAnswer(setup, o, k, desk, open);
    var saved := Save(k.(desk := desk), Answered(k.state)).value;
    n := Emit(saved, InterruptResolved(open));
    StorageDesk(o, k, desk);
    SaveWorks(setup, o, k.(desk := desk), Answered(k.state));
    StampedFields(Answered(k.state), k.issued);
  }

  // ---- runs that never complete ----

  /** The step at hand asks for approval whenever it is executed. */
  ghost predicate Stuck(setup: Setup, o: Origin, exec: Executors, k: Kernel) {
    && Inv(setup, o, k) && k.state.currentStep.Some?
    && (match k.phase
        case Advancing(payload) =>
          exec(k.state.currentStep.value, payload, k.state.artifacts, k.state.channels).NeedsApproval?
        case Idle =>
          && k.state.status == WAITING_APPROVAL && k.state.pendingInput.Some?
          && exec(k.state.currentStep.value, k.state.pendingInput.value, k.state.artifacts,
               k.state.channels).NeedsApproval?
        case Crashed => false)
  }

  /** The run waits on a request that can no longer be answered, or is gone. */
  ghost predicate Dead(setup: Setup, o: Origin, k: Kernel) {
    && Inv(setup, o, k) && k.phase.Idle? && k.state.status == WAITING_INTERRUPT && k.state.pendingInterruptId.Some?
    && var q := RequestOf(k.desk, k.state.runId, k.state.pendingInterruptId.value);
       q.None? || !q.value.status.Pending?
  }

  ghost predicate Doomed(setup: Setup, o: Origin, exec: Executors, k: Kernel) {
    k.phase.Crashed? || (k.phase.Idle? && k.state.status == FAILED) || Stuck(setup, o, exec, k) || Dead(setup, o, k)
  }

  /** Asking leaves a run stuck that was about to execute such a step. */
  lemma AskStuck(setup: Setup, o: Origin, exec: Executors, k: Kernel, step: string, payload: Value)
    requires Loose(setup, o, k) && k.sum.step == k.state.currentStep == Some(step)
    requires Walkable(setup) ==> Entering(setup.workflow.steps, o.start, k.sum.walk, Some(step))
    requires exec(step, payload, k.state.artifacts, k.state.channels).NeedsApproval?
    ensures Stuck(setup, o, exec, Settle(AskApproval(k, step, payload)))
  {
    hide Loose, Inv, AskApproval, Entering;
    AskWorks(setup, o, k, step, payload);
    AskView(setup, o, k, step, payload);
  }

  lemma StuckStays(setup: Setup, o: Origin, exec: Executors, now: int, k: Kernel)
    requires Accepted(setup.workflow) && Stuck(setup, o, exec, k)
    ensures Doomed(setup, o, exec, Move(setup, exec, now, k)) && !Done(k)
  {
    hide Loose, Inv, AskApproval, Entering, Emit, Accepted, Find, Names, TokensOk, FailRun, Finish, ResumeApproval,
      Gated, MissingArtifact;
    if k.phase.Advancing? {
      var payload := k.phase.payload;
      LoopIsLoose(setup, o, k);
      CurrentFound(setup, o, k);
      var step := Find(setup.workflow.steps, k.state.currentStep.value).value;
      var k1 := Emit(k, StepEntered(step.name));
      LooseEmit(setup, o, k, StepEntered(step.name));
      EmitState(k, StepEntered(step.name));
      if MissingArtifact(step, k.state.artifacts) {
      } else if RequiresApproval(step, k.state) {
        AskStuck(setup, o, exec, k1, step.name, payload);
      } else {
        TokensEmitted(setup, o, k, StepEntered(step.name));
        AcceptedDistinct(setup);
        StartWorks(setup, o, k1, step);
        EmitState(k1, ExecutionStarted(step.name));
        AskStuck(setup, o, exec, Emit(k1, ExecutionStarted(step.name)), step.name, payload);
      }
    } else {
      ResumeApprovalWorks(setup, o, k, Approve);
      ApproveView(setup, o, k);
    }
  }

  lemma AcceptedDistinct(setup: Setup)
    requires Accepted(setup.workflow)
    ensures Distinct(setup.workflow.steps)
  {
  }

  /** An answer after the expiry, or to a request already settled, leaves the run waiting for good. */
  lemma LateAnswer(setup: Setup, o: Origin, exec: Executors, now: int, k: Kernel)
    requires Accepted(setup.workflow) && Inv(setup, o, k) && k.phase.Idle? && k.state.status == WAITING_INTERRUPT
    requires Dead(setup, o, k) || !OnTime(now, k)
    ensures Dead(setup, o, Move(setup, exec, now, k))
  {
    hide Inv, Accepted, Save, Saved, RequestOf, FollowContinuation, Bumped, ResumeApproval, Misrouted;
    InterruptLoose(setup, o, k);
    var open, r := k.state.pendingInterruptId.value, k.state.runId;
    var q := RequestOf(k.desk, r, open);
    OpenIs(k.desk, r, k.state.epoch, k.issued, open);
    ResumeWorks(setup, o, k, Answer(open, Null, None), now);
    if q.Some? && q.value.status.Pending? {
      SavedLookup(k.desk, q.value.(status := Expired), r, open);
    }
  }

  /** A request that cannot be answered now is settled, gone or too late. */
  lemma SettledIsDead(setup: Setup, o: Origin, now: int, k: Kernel)
    requires Inv(setup, o, k) && k.phase.Idle? && k.state.status == WAITING_INTERRUPT
      && k.state.pendingInterruptId.Some?
    requires
      var q := RequestOf(k.desk, k.state.runId, k.state.pendingInterruptId.value);
      !(OnTime(now, k) && q.Some? && q.value.status.Pending?)
    ensures Dead(setup, o, k) || !OnTime(now, k)
  {
    hide Inv, OnTime;
  }

  lemma OpenIs(desk: Store, r: string, epoch: int, issued: nat, open: string)
    requires OneOpen(desk, r, epoch, issued, Some(open))
    ensures RequestOf(desk, r, open).Some? ==>
      var q := RequestOf(desk, r, open).value;
      q.interruptId == open && q.runId == r && q.epoch == epoch
  {
  }

  lemma DrawnStuck(setup: Setup, o: Origin, exec: Executors, k: Kernel, drawn: nat)
    requires Doomed(setup, o, exec, k)
    ensures Doomed(setup, o, exec, Drawn(k, drawn))
  {
    hide Inv;
    if Stuck(setup, o, exec, k) || Dead(setup, o, k) {
      DrawnWorks(setup, o, k, drawn);
    }
  }

  lemma DoomedStays(setup: Setup, o: Origin, exec: Executors, tick: Tick, k: Kernel)
    requires Accepted(setup.workflow) && Doomed(setup, o, exec, k)
    ensures Doomed(setup, o, exec, Poke(setup, exec, tick, k)) && !Done(k)
  {
    hide Accepted, Inv, Iterate, Stuck, Dead;
    var d := Drawn(k, tick.drawn);
    DrawnStuck(setup, o, exec, k, tick.drawn);
    if Stuck(setup, o, exec, d) {
      StuckStays(setup, o, exec, tick.now, d);
    } else if Dead(setup, o, d) {
      DeadIs(setup, o, d);
      LateAnswer(setup, o, exec, tick.now, d);
    }
  }

  lemma DeadIs(setup: Setup, o: Origin, k: Kernel)
    requires Dead(setup, o, k)
    ensures Inv(setup, o, k) && k.phase.Idle? && k.state.status == WAITING_INTERRUPT
  {
  }

  lemma {:induction false} DoomedNeverDone(setup: Setup, o: Origin, exec: Executors, ticks: Ticks, k: Kernel, at: nat,
                                           n: nat)
    requires Accepted(setup.workflow) && Doomed(setup, o, exec, k)
    ensures !Done(Drive(setup, exec, ticks, k, at, n))
    decreases n
  {
    hide Accepted, Doomed, Poke, Done;
    DoomedStays(setup, o, exec, ticks(at), k);
    if n > 0 {
      DoomedNeverDone(setup, o, exec, ticks, Poke(setup, exec, ticks(at), k), at + 1, n - 1);
    }
  }

  // ---- one step of both runs ----

  /** Both runs are about to execute the same step on the same view, with no token held. */
  ghost predicate Meet(setup: Setup, o: Origin, a: Kernel, b: Kernel) {
    && InLoop(setup, o, a) && InLoop(Strip(setup), o, b)
    && Twin(a, b) && a.phase == b.phase && a.state.approvedSteps == b.state.approvedSteps == {}
  }

  ghost predicate EndAlike(setup: Setup, o: Origin, exec: Executors, a: Kernel, b: Kernel) {
    || Meet(setup, o, a, b)
    || (Done(a) && Done(b) && Twin(a, b))
    || (Doomed(setup, o, exec, a) && Doomed(Strip(setup), o, StripExecutors(exec), b))
  }

  ghost predicate Left(setup: Setup, o: Origin, k: Kernel, step: string) {
    && Loose(setup, o, k) && k.sum.status == k.state.status == RUNNING && k.state.approvedSteps == {}
    && k.state.currentStep == k.sum.step == Some(step) && Leaving(k.sum.walk, Some(step))
  }

  /** The same transition taken from the same view. */
  lemma TransitTwins(setup: Setup, o: Origin, exec: Executors, a: Kernel, b: Kernel, step: string, next: string,
                     handoff: Option<string>, payload: Value)
    requires Left(setup, o, a, step) && Left(Strip(setup), o, b, step) && SameView(a, b)
    requires next == END_STEP || next in Names(setup.workflow.steps)
    requires Walkable(setup) ==> Edge(setup.workflow.steps, step, Some(next))
    requires handoff.Some? ==> HandoverOk(setup.workflow.steps, Handover(Some(step), handoff.value, next))
    ensures EndAlike(setup, o, exec, Settle(Transit(a, step, next, handoff, payload)),
        Settle(Transit(b, step, next, handoff, payload)))
  {
    hide Loose, Inv, Transit, Names, Edge, Leaving, Doomed;
    StripFinds(setup.workflow.steps, step);
    EdgeStripped(setup, step, next);
    StripHandover(setup.workflow.steps, step, handoff, next);
    TransitWorks(setup, o, a, step, next, handoff, payload);
    TransitView(setup, o, a, step, next, handoff, payload);
    TransitWorks(Strip(setup), o, b, step, next, handoff, payload);
    TransitView(Strip(setup), o, b, step, next, handoff, payload);
  }

  lemma EdgeStripped(setup: Setup, step: string, next: string)
    ensures Edge(Strip(setup).workflow.steps, step, Some(next)) == Edge(setup.workflow.steps, step, Some(next))
    ensures Names(Strip(setup).workflow.steps) == Names(setup.workflow.steps)
    ensures Walkable(Strip(setup)) == Walkable(setup)
  {
    hide Names, Find, Targets;
    StripFinds(setup.workflow.steps, step);
    StripFinds(setup.workflow.steps, "");
  }

  lemma StripHandover(steps: seq<Step>, step: string, handoff: Option<string>, next: string)
    ensures Allowlisted(StripSteps(steps), step, handoff) == Allowlisted(steps, step, handoff)
    ensures handoff.Some? ==>
      HandoverOk(StripSteps(steps), Handover(Some(step), handoff.value, next))
        == HandoverOk(steps, Handover(Some(step), handoff.value, next))
  {
    hide Names, Find;
    StripFinds(steps, step);
    StripFinds(steps, next);
  }

  /** Routed alike, both runs take the same transition or both fail. */
  lemma RouteTwins(setup: Setup, o: Origin, exec: Executors, a: Kernel, b: Kernel, step: Step, output: Value,
                   handoff: Option<string>, command: Option<Command>)
    requires Accepted(setup.workflow) && step in setup.workflow.steps
    requires Left(setup, o, a, step.name) && Left(Strip(setup), o, b, step.name) && SameView(a, b)
    requires Allowlisted(setup.workflow.steps, step.name, handoff)
    ensures EndAlike(setup, o, exec, Settle(Route(setup, a, step, output, handoff, command)),
                  Settle(Route(Strip(setup), b, StripStep(step), output, handoff, StripCommand(command))))
  {
    hide Accepted, Left, Inv, Transit, RouteNext, Names, Edge, Stuck, Meet, SameView, Strip;
    StripParts(setup, step);
    RouteStripped(setup, step, output, handoff, GotoOf(command));
    RoutedEdge(setup, step, output, handoff, GotoOf(command));
    var r := RouteNext(step, output, setup.workflow.steps, handoff, GotoOf(command), setup.str);
    if r.Success? {
      TransitTwins(setup, o, exec, a, b, step.name, r.value, handoff, output);
    } else {
      RouteFails(setup, o, a, step, output, handoff, command);
      RouteFails(Strip(setup), o, b, StripStep(step), output, handoff, StripCommand(command));
    }
  }

  lemma StripParts(setup: Setup, step: Step)
    ensures Strip(setup).str == setup.str && Strip(setup).maxPending == setup.maxPending
      && StripStep(step).name == step.name
  {
  }

  lemma RouteFails(setup: Setup, o: Origin, k: Kernel, step: Step, output: Value, handoff: Option<string>,
                   command: Option<Command>)
    requires Left(setup, o, k, step.name)
    requires RouteNext(step, output, setup.workflow.steps, handoff, GotoOf(command), setup.str).Failure?
    ensures
      var n := Settle(Route(setup, k, step, output, handoff, command));
      n.phase.Idle? && n.state.status == FAILED
  {
    hide Loose, Emit, RouteNext, FailRun, Leaving, Entering, Story, OneOpen, Storage, Replay;
    if handoff.Some? {
      LooseEmit(setup, o, k, HandoffRejected(handoff.value));
      EmitState(k, HandoffRejected(handoff.value));
      FailWorks(setup, o, Emit(k, HandoffRejected(handoff.value)), "illegal transition");
    } else {
      FailWorks(setup, o, k, "illegal transition");
    }
  }

  /** Pausing and being answered with None in time comes to the same as routing at once; answered too
      late, the run waits for good. */
  lemma PauseTwins(setup: Setup, o: Origin, exec: Executors, now: int, tick: Tick, a: Kernel, b: Kernel, step: Step,
                   output: Value, handoff: Option<string>, command: Command)
    requires Accepted(setup.workflow) && step in setup.workflow.steps && step.name != "" && setup.maxPending > 0
    requires Left(setup, o, a, step.name) && Left(Strip(setup), o, b, step.name) && SameView(a, b)
    requires command.interrupt.Some? && Allowlisted(setup.workflow.steps, step.name, handoff)
    ensures
      Answerable(setup, o, exec, tick, Settle(Pause(setup, a, step, output, handoff, command, now)),
                 Settle(Route(Strip(setup), b, StripStep(step), output, handoff, StripCommand(Some(command)))))
  {
    hide Accepted, Loose, Inv, Transit, RouteNext, Names, Edge, Stuck, Meet, Strip, Pause, ResumeInterrupt,
      FollowContinuation, Iterate, Leaving, RequestOf, Find, Allowlisted, EndAlike, Dead, OnTime;
    PauseWorks(setup, o, a, step, output, handoff, command, now);
    PauseView(setup, o, a, step, output, handoff, command, now);
    var paused := Pause(setup, a, step, output, handoff, command, now).value;
    var p := Drawn(paused, tick.drawn);
    DrawnWorks(setup, o, paused, tick.drawn);
    DrawnOnTime(tick.now, paused, tick.drawn);
    if OnTime(tick.now, paused) {
      OnTimeIs(tick.now, p);
      var n := AnswerView(setup, o, p, Null, tick.now);
      FollowTwins(setup, o, exec, n, b, step, output, handoff, command);
    } else {
      LateAnswer(setup, o, exec, tick.now, p);
    }
  }

  /** The run waits; poked in time it comes after, as the other run does, and otherwise it waits for good. */
  ghost predicate Answerable(setup: Setup, o: Origin, exec: Executors, tick: Tick, x: Kernel, y: Kernel) {
    && !Done(x)
    && (OnTime(tick.now, x) ==> EndAlike(setup, o, exec, Poke(setup, exec, tick, x), y))
    && (!OnTime(tick.now, x) ==> Dead(setup, o, Poke(setup, exec, tick, x)))
  }

  lemma DrawnOnTime(now: int, k: Kernel, drawn: nat)
    ensures OnTime(now, Drawn(k, drawn)) == OnTime(now, k)
  {
  }

  lemma OnTimeIs(now: int, k: Kernel)
    requires OnTime(now, k) && k.phase.Idle? && k.state.status == WAITING_INTERRUPT && k.state.pendingInterruptId.Some?
    requires RequestOf(k.desk, k.state.runId, k.state.pendingInterruptId.value).Some?
    ensures RequestOf(k.desk, k.state.runId, k.state.pendingInterruptId.value).value.expiresAt > now
  {
  }

  /** Following the saved transition with None comes to the same as routing at once. */
  lemma FollowTwins(setup: Setup, o: Origin, exec: Executors, n: Kernel, b: Kernel, step: Step, output: Value,
                    handoff: Option<string>, command: Command)
    requires Accepted(setup.workflow) && step in setup.workflow.steps && step.name != ""
    requires Left(setup, o, n, step.name) && Left(Strip(setup), o, b, step.name) && SameView(n, b)
    requires n.state.pendingResume == Some(Continuation(step.name, output, handoff, command))
    requires Allowlisted(setup.workflow.steps, step.name, handoff)
    ensures EndAlike(setup, o, exec, Settle(FollowContinuation(setup, n, Null)),
                  Settle(Route(Strip(setup), b, StripStep(step), output, handoff, StripCommand(Some(command)))))
  {
    hide Accepted, Loose, Inv, Transit, RouteNext, Names, Edge, Stuck, Meet, Strip, FollowContinuation, Leaving, Find,
      Allowlisted, Lands, Dead;
    FollowIs(setup, n, step, Null);
    StripParts(setup, step);
    RouteStripped(setup, step, output, handoff, command.goto);
    RoutedEdge(setup, step, output, handoff, command.goto);
    var r := RouteNext(step, output, setup.workflow.steps, handoff, command.goto, setup.str);
    var popped := n.(state := n.state.(pendingResume := None));
    PopLoose(setup, o, n);
    if r.Success? {
      TransitTwins(setup, o, exec, popped, b, step.name, r.value, handoff, output);
    } else {
      RouteFails(Strip(setup), o, b, StripStep(step), output, handoff, StripCommand(Some(command)));
    }
  }

  lemma FollowIs(setup: Setup, n: Kernel, step: Step, response: Value)
    requires Accepted(setup.workflow) && step in setup.workflow.steps && step.name != ""
    requires n.state.pendingResume.Some? && n.state.pendingResume.value.stepName == step.name
    ensures
      var c := n.state.pendingResume.value;
      var popped := n.(state := n.state.(pendingResume := None));
      FollowContinuation(setup, n, response) ==
        match RouteNext(step, c.output, setup.workflow.steps, c.handoff, c.command.goto, setup.str)
        case Failure(_) => Failure(popped)
        case Success(next) => Transit(popped, step.name, next, c.handoff, if response.Null? then c.output else response)
  {
    hide RouteNext, Transit, Closed, Coherent;
    FindDistinct(setup.workflow.steps, step);
  }

  // ---- executing in both runs ----

  lemma UpdateStripped(setup: Setup, channels: map<string, Value>, update: map<string, Value>)
    ensures ApplyUpdate(Strip(setup), channels, update) == ApplyUpdate(setup, channels, update)
  {
    assert Reductions(Strip(setup), channels, update) == Reductions(setup, channels, update);
  }

  ghost predicate Ran(setup: Setup, o: Origin, k: Kernel, step: string) {
    && Unrecorded(setup, o, k) && k.state.currentStep == k.sum.step == Some(step)
       && k.sum.status == k.state.status == RUNNING
    && AddOnce(k.state.completedSteps, step) == AddAll(o.done, k.sum.walk)
    && Leaving(k.sum.walk, Some(step))
  }

  lemma RecordTwins(setup: Setup, o: Origin, a: Kernel, b: Kernel, step: Step, output: Value, command: Option<Command>)
    requires Ran(setup, o, a, step.name) && Ran(Strip(setup), o, b, step.name) && SameView(a, b)
    ensures
      var ra := Record(setup, a, step, output, command);
      var rb := Record(Strip(setup), b, StripStep(step), output, StripCommand(command));
      && (ra.Failure? <==> rb.Failure?)
      && (ra.Success? ==>
           Left(setup, o, ra.value, step.name) && Left(Strip(setup), o, rb.value, step.name)
             && SameView(ra.value, rb.value))
  {
    hide Unrecorded, Loose, Record, ApplyUpdate, Strip, Leaving, AddAll, Walkable;
    var stripped := StripCommand(command);
    if command.Some? {
      UpdateStripped(setup, a.state.channels, command.value.stateUpdate);
    } else {
      UpdateStripped(setup, a.state.channels, map[]);
    }
    StripParts(setup, step);
    RecordFails(setup, o, a, step, output, command);
    RecordFails(Strip(setup), o, b, StripStep(step), output, stripped);
    if Record(setup, a, step, output, command).Success? {
      RecordWorks(setup, o, a, step, output, command);
      RecordView(setup, o, a, step, output, command);
      RecordWorks(Strip(setup), o, b, StripStep(step), output, stripped);
      RecordView(Strip(setup), o, b, StripStep(step), output, stripped);
    }
  }

  lemma FinishTwins(setup: Setup, o: Origin, exec: Executors, now: int, other: int, tick: Tick, a: Kernel, b: Kernel,
                    step: Step, out: Outcome)
    requires Accepted(setup.workflow) && step in setup.workflow.steps
      && (Interrupting(out) ==> step.name != "" && setup.maxPending > 0)
    requires Ran(setup, o, a, step.name) && Ran(Strip(setup), o, b, step.name) && SameView(a, b)
    requires out.Finished? && Allowlisted(setup.workflow.steps, step.name, out.handoff)
    ensures
      var x := Settle(Finish(setup, a, step, out, now));
      var y := Settle(Finish(Strip(setup), b, StripStep(step), StripOutcome(out), other));
      EndAlike(setup, o, exec, x, y) || Answerable(setup, o, exec, tick, x, y)
  {
    hide Accepted, Ran, Left, Stuck, Meet, Strip, Pause, Route, Record, Poke, SameView, Answerable, Allowlisted, Dead;
    var output := OutputOf(out.output, out.command);
    RecordTwins(setup, o, a, b, step, output, out.command);
    var ra := Record(setup, a, step, output, out.command);
    var rb := Record(Strip(setup), b, StripStep(step), output, StripCommand(out.command));
    if ra.Success? {
      if out.command.Some? && out.command.value.interrupt.Some? {
        PauseTwins(setup, o, exec, now, tick, ra.value, rb.value, step, output, out.handoff, out.command.value);
      } else {
        RouteTwins(setup, o, exec, ra.value, rb.value, step, output, out.handoff, out.command);
      }
    }
  }

  // ---- one iteration ----

  function Entered(k: Kernel, step: string): Kernel {
    Emit(Emit(k, StepEntered(step)), ExecutionStarted(step))
  }

  /** A step that is found, has its artifacts and needs no approval is executed. */
  lemma FireIs(setup: Setup, exec: Executors, now: int, k: Kernel, step: Step)
    requires k.phase.Advancing? && k.state.currentStep == Some(step.name)
      && Find(setup.workflow.steps, step.name) == Some(step)
    requires !MissingArtifact(step, k.state.artifacts) && !RequiresApproval(step, k.state)
    ensures
      var payload := k.phase.payload;
      var out := Admitted(step, exec(step.name, payload, k.state.artifacts, k.state.channels));
      var k2 := Entered(k, step.name);
      Move(setup, exec, now, k) == Settle(
        match out
        case NeedsApproval => AskApproval(k2, step.name, payload)
        case Fails(error) => FailRun(k2, error)
        case Finished(_, _, _) => Finish(setup, Emit(k2, ExecutionCompleted(step.name)), step, out, now))
  {
    hide Emit, AskApproval, FailRun, Finish, Admitted, MissingArtifact, RequiresApproval, Find;
  }

  lemma Fired(setup: Setup, o: Origin, k: Kernel, step: Step)
    requires Accepted(setup.workflow) && InLoop(setup, o, k) && step in setup.workflow.steps
    requires k.state.currentStep == Some(step.name) && !RequiresApproval(step, k.state)
    ensures
      var k2 := Entered(k, step.name);
      && Loose(setup, o, k2) && k2.state == k.state && k2.sum.walk == k.sum.walk
      && k2.sum.step == k.state.currentStep && k2.sum.status == k2.state.status == RUNNING
      && (Walkable(setup) ==> Entering(setup.workflow.steps, o.start, k2.sum.walk, Some(step.name)))
  {
    hide Loose, Inv, Emit, Entering, Accepted, TokensOk, RequiresApproval, Walkable;
    LoopIsLoose(setup, o, k);
    LooseEmit(setup, o, k, StepEntered(step.name));
    EmitState(k, StepEntered(step.name));
    TokensEmitted(setup, o, k, StepEntered(step.name));
    AcceptedDistinct(setup);
    var k1 := Emit(k, StepEntered(step.name));
    StartWorks(setup, o, k1, step);
    EmitState(k1, ExecutionStarted(step.name));
  }

  lemma RanAfter(setup: Setup, o: Origin, k: Kernel, step: Step)
    requires Loose(setup, o, k) && k.state.currentStep == k.sum.step == Some(step.name)
      && k.sum.status == k.state.status == RUNNING
    requires Walkable(setup) ==> Entering(setup.workflow.steps, o.start, k.sum.walk, Some(step.name))
    ensures
      var n := Emit(k, ExecutionCompleted(step.name));
      Ran(setup, o, n, step.name) && n.state == k.state && n.sum.walk == k.sum.walk + [step.name]
  {
    hide Loose, Unrecorded, Entering, AddAll, Walkable;
    ExecutedWorks(setup, o, k, step);
  }

  /** The gated run holds the token it may need; both execute, each at its own time. */
  lemma ArmedTwins(setup: Setup, o: Origin, exec: Executors, now: int, other: int, tick: Tick, a: Kernel, b: Kernel,
                   step: Step)
    requires Accepted(setup.workflow) && Sparing(setup, exec)
    requires InLoop(setup, o, a) && InLoop(Strip(setup), o, b) && Twin(a, b) && a.phase == b.phase
    requires step in setup.workflow.steps && a.state.currentStep == Some(step.name)
      && !MissingArtifact(step, a.state.artifacts)
    requires !RequiresApproval(step, a.state)
    ensures
      var x := Move(setup, exec, now, a);
      var y := Move(Strip(setup), StripExecutors(exec), other, b);
      EndAlike(setup, o, exec, x, y) || Answerable(setup, o, exec, tick, x, y)
  {
    hide Accepted, Inv, Loose, Ran, Meet, Strip, Move, Poke, Sparing, RequiresApproval, MissingArtifact, Entered,
      AskApproval, FailRun, Finish, Admitted, Entering, Emit, Find, Answerable, Dead, Allowlisted;
    var t := StripStep(step);
    ArmedStripped(setup, step, b.state);
    StripAccepted(setup);
    StepFound(setup, step);
    var payload := a.phase.payload;
    var raw := exec(step.name, payload, a.state.artifacts, a.state.channels);
    var out := Admitted(step, raw);
    AdmittedStripped(step, raw);
    AdmittedAllowlisted(setup, step, raw);
    SparingAt(setup, exec, step, payload, a.state);
    FireIs(setup, exec, now, a, step);
    FireIs(Strip(setup), StripExecutors(exec), other, b, t);
    Fired(setup, o, a, step);
    Fired(Strip(setup), o, b, t);
    var a2, b2 := Entered(a, step.name), Entered(b, step.name);
    match out
    case NeedsApproval =>
      AdmittedNeeds(step, raw);
      AskStuck(setup, o, exec, a2, step.name, payload);
      AskStuck(Strip(setup), o, StripExecutors(exec), b2, step.name, payload);
    case Fails(error) =>
      FailIdle(setup, o, a2, error);
      FailIdle(Strip(setup), o, b2, error);
    case Finished(_, _, _) =>
      RanAfter(setup, o, a2, step);
      RanAfter(Strip(setup), o, b2, t);
      FinishTwins(setup, o, exec, now, other, tick, Emit(a2, ExecutionCompleted(step.name)),
          Emit(b2, ExecutionCompleted(step.name)), step, out);
  }

  lemma FailIdle(setup: Setup, o: Origin, k: Kernel, error: string)
    requires Loose(setup, o, k) && k.sum.step == k.state.currentStep
    requires Walkable(setup) ==> Entering(setup.workflow.steps, o.start, k.sum.walk, k.state.currentStep)
    ensures FailRun(k, error).Success? && FailRun(k, error).value.phase.Idle?
      && FailRun(k, error).value.state.status == FAILED
  {
    hide Loose, FailRun, Entering, Leaving, Story, OneOpen, Storage, Replay;
    FailWorks(setup, o, k, error);
  }

  lemma SparingAt(setup: Setup, exec: Executors, step: Step, payload: Value, s: RunState)
    requires Sparing(setup, exec) && step in setup.workflow.steps
    ensures Interrupting(Admitted(step, exec(step.name, payload, s.artifacts, s.channels))) ==>
      step.name != "" && setup.maxPending > 0
  {
  }

  lemma AdmittedNeeds(step: Step, raw: Outcome)
    requires Admitted(step, raw).NeedsApproval?
    ensures raw.NeedsApproval?
  {
  }

  lemma StepFound(setup: Setup, step: Step)
    requires Accepted(setup.workflow) && step in setup.workflow.steps
    ensures Find(setup.workflow.steps, step.name) == Some(step)
  {
    hide Closed, Coherent;
    FindDistinct(setup.workflow.steps, step);
  }

  lemma ArmedStripped(setup: Setup, step: Step, s: RunState)
    requires Accepted(setup.workflow) && step in setup.workflow.steps
    ensures StripStep(step).name == step.name && StripStep(step) in Strip(setup).workflow.steps
    ensures Find(Strip(setup).workflow.steps, step.name) == Some(StripStep(step))
    ensures !RequiresApproval(StripStep(step), s)
    ensures MissingArtifact(StripStep(step), s.artifacts) == MissingArtifact(step, s.artifacts)
  {
    hide Names;
    StepFound(setup, step);
    StripFinds(setup.workflow.steps, step.name);
  }

  /** A gate: the run asks, is granted whenever that may be, and stands where it stood with a token for
      the step. */
  lemma GateOpens(setup: Setup, o: Origin, exec: Executors, now: int, tick: Tick, a: Kernel, step: Step)
    requires Accepted(setup.workflow) && InLoop(setup, o, a) && step in setup.workflow.steps
    requires a.state.currentStep == Some(step.name) && !MissingArtifact(step, a.state.artifacts)
      && RequiresApproval(step, a.state)
    ensures
      var x := Move(setup, exec, now, a);
      var y := Poke(setup, exec, tick, x);
      && !Done(x) && OnTime(tick.now, x) && InLoop(setup, o, y) && Twin(y, a) && y.phase == a.phase
         && !RequiresApproval(step, y.state)
  {
    hide Accepted, Inv, Loose, AskApproval, ResumeApproval, Emit, Find, MissingArtifact, Gated, Entering, TokensOk,
      Walkable;
    StepFound(setup, step);
    LoopIsLoose(setup, o, a);
    LooseEmit(setup, o, a, StepEntered(step.name));
    EmitState(a, StepEntered(step.name));
    var k1 := Emit(a, StepEntered(step.name));
    AskWorks(setup, o, k1, step.name, a.phase.payload);
    AskView(setup, o, k1, step.name, a.phase.payload);
    var x := AskApproval(k1, step.name, a.phase.payload).value;
    DrawnWorks(setup, o, x, tick.drawn);
    var d := Drawn(x, tick.drawn);
    ResumeApprovalWorks(setup, o, d, Approve);
    ApproveView(setup, o, d);
  }

  /** Neither run has a step left. */
  lemma BothComplete(setup: Setup, o: Origin, exec: Executors, now: int, other: int, a: Kernel, b: Kernel)
    requires Meet(setup, o, a, b) && a.state.currentStep.None?
    ensures
      var x := Move(setup, exec, now, a);
      var y := Move(Strip(setup), StripExecutors(exec), other, b);
      Done(x) && Done(y) && Twin(x, y)
  {
    hide Inv, Complete;
    CompleteView(setup, o, a);
    CompleteView(Strip(setup), o, b);
  }

  lemma CompleteView(setup: Setup, o: Origin, k: Kernel)
    requires InLoop(setup, o, k) && k.state.currentStep.None?
    ensures Complete(k).Success? && Done(Complete(k).value) && Twin(Complete(k).value, k)
  {
    hide Inv, Loose, Save, Stamped, Storage, Linked, Replay, Story, OneOpen, Entering;
    LoopIsLoose(setup, o, k);
    CurrentFound(setup, o, k);
    var s := k.state.(currentStep := None, status := COMPLETED);
    LooseSavable(setup, o, k, s);
    SaveWorks(setup, o, k, s);
    StampedFields(s, k.issued);
  }

  lemma BothCrash(setup: Setup, o: Origin, exec: Executors, now: int, other: int, a: Kernel, b: Kernel, step: Step)
    requires Accepted(setup.workflow) && Meet(setup, o, a, b) && step in setup.workflow.steps
    requires a.state.currentStep == Some(step.name) && MissingArtifact(step, a.state.artifacts)
    ensures Move(setup, exec, now, a).phase.Crashed?
      && Move(Strip(setup), StripExecutors(exec), other, b).phase.Crashed?
  {
    hide Accepted, Inv, Emit, Find, MissingArtifact, Strip, Execute, AskApproval, FailRun, Complete;
    StepFound(setup, step);
    ArmedStripped(setup, step, b.state);
  }

  lemma DrawnMeet(setup: Setup, o: Origin, a: Kernel, b: Kernel, x: nat, y: nat)
    requires Meet(setup, o, a, b)
    ensures Meet(setup, o, Drawn(a, x), Drawn(b, y))
  {
    hide Inv, Strip;
    DrawnWorks(setup, o, a, x);
    DrawnWorks(Strip(setup), o, b, y);
  }

  /** One iteration of the run without pauses is a few moves of the run with them; each answer given in
      time, the two runs meet again or end alike, and otherwise the one with pauses never completes. */
  lemma MacroStep(setup: Setup, o: Origin, exec: Executors, ticks: Ticks, other: Tick, a: Kernel, b: Kernel, at: nat)
    returns (j: nat)
    requires Accepted(setup.workflow) && Sparing(setup, exec)
    requires Meet(setup, o, a, b)
    ensures 1 <= j <= 4
    ensures
      var x := Drive(setup, exec, ticks, a, at, j);
      && (EndAlike(setup, o, exec, x, Poke(Strip(setup), StripExecutors(exec), other, b)) || Dead(setup, o, x))
      && ((forall i: nat | i < j :: OnTimeAt(setup, exec, ticks, a, at, i)) ==>
            EndAlike(setup, o, exec, x, Poke(Strip(setup), StripExecutors(exec), other, b)))
    ensures forall i: nat | i < j :: !Done(Drive(setup, exec, ticks, a, at, i))
  {
    hide Accepted, Inv, Stuck, Strip, Move, Sparing, RequiresApproval, MissingArtifact, Find, Drive, Dead, OnTime,
      StripExecutors, Drawn;
    DriveFour(setup, exec, ticks, a, at);
    var d, y := Drawn(a, ticks(at).drawn), Drawn(b, other.drawn);
    DrawnMeet(setup, o, a, b, ticks(at).drawn, other.drawn);
    CurrentDrawn(a, ticks(at).drawn);
    if d.state.currentStep.None? {
      BothComplete(setup, o, exec, ticks(at).now, other.now, d, y);
      return 1;
    }
    CurrentFound(setup, o, d);
    var step := Find(setup.workflow.steps, d.state.currentStep.value).value;
    if MissingArtifact(step, d.state.artifacts) {
      BothCrash(setup, o, exec, ticks(at).now, other.now, d, y, step);
      return 1;
    }
    var z := Move(Strip(setup), StripExecutors(exec), other.now, y);
    var p := Poke(setup, exec, ticks(at), a);
    if !RequiresApproval(step, d.state) {
      ArmedTwins(setup, o, exec, ticks(at).now, other.now, ticks(at + 1), d, y, step);
      j := if EndAlike(setup, o, exec, p, z) then 1 else 2;
      assert OnTimeAt(setup, exec, ticks, a, at, 1) == OnTime(ticks(at + 1).now, p);
    } else {
      GateOpens(setup, o, exec, ticks(at).now, ticks(at + 1), d, step);
      var open := Poke(setup, exec, ticks(at + 1), p);
      var armed := Drawn(open, ticks(at + 2).drawn);
      DrawnLoop(setup, o, open, ticks(at + 2).drawn);
      ArmedTwins(setup, o, exec, ticks(at + 2).now, other.now, ticks(at + 3), armed, y, step);
      j := if EndAlike(setup, o, exec, Poke(setup, exec, ticks(at + 2), open), z) then 3 else 4;
      assert OnTimeAt(setup, exec, ticks, a, at, 3)
        == OnTime(ticks(at + 3).now, Poke(setup, exec, ticks(at + 2), open));
    }
  }

  lemma CurrentDrawn(k: Kernel, drawn: nat)
    ensures Drawn(k, drawn).state == k.state && Drawn(k, drawn).phase == k.phase
  {
  }

  lemma DrawnLoop(setup: Setup, o: Origin, k: Kernel, drawn: nat)
    requires InLoop(setup, o, k)
    ensures InLoop(setup, o, Drawn(k, drawn)) && Drawn(k, drawn).state == k.state && Drawn(k, drawn).phase == k.phase
    ensures Twin(Drawn(k, drawn), k)
  {
    hide Inv;
    DrawnWorks(setup, o, k, drawn);
  }

  lemma DriveFour(setup: Setup, exec: Executors, ticks: Ticks, k: Kernel, at: nat)
    ensures
      var p1 := Poke(setup, exec, ticks(at), k);
      var p2 := Poke(setup, exec, ticks(at + 1), p1);
      var p3 := Poke(setup, exec, ticks(at + 2), p2);
      && Drive(setup, exec, ticks, k, at, 0) == k && Drive(setup, exec, ticks, k, at, 1) == p1
         && Drive(setup, exec, ticks, k, at, 2) == p2
      && Drive(setup, exec, ticks, k, at, 3) == p3
         && Drive(setup, exec, ticks, k, at, 4) == Poke(setup, exec, ticks(at + 3), p3)
  {
    hide Poke;
    DriveNext(setup, exec, ticks, k, at, 0);
    DriveNext(setup, exec, ticks, k, at, 1);
    DriveNext(setup, exec, ticks, k, at, 2);
    DriveNext(setup, exec, ticks, k, at, 3);
  }

  lemma {:induction false} DriveNext(setup: Setup, exec: Executors, ticks: Ticks, k: Kernel, at: nat, n: nat)
    ensures Drive(setup, exec, ticks, k, at, n + 1)
      == Poke(setup, exec, ticks(at + n), Drive(setup, exec, ticks, k, at, n))
    decreases n
  {
    hide Poke;
    if n > 0 {
      DriveNext(setup, exec, ticks, Poke(setup, exec, ticks(at), k), at + 1, n - 1);
    }
  }

  lemma {:induction false} DriveSplit(setup: Setup, exec: Executors, ticks: Ticks, k: Kernel, at: nat, i: nat, j: nat)
    ensures Drive(setup, exec, ticks, k, at, i + j)
      == Drive(setup, exec, ticks, Drive(setup, exec, ticks, k, at, i), at + i, j)
    decreases i
  {
    hide Poke;
    if i > 0 {
      DriveSplit(setup, exec, ticks, Poke(setup, exec, ticks(at), k), at + 1, i - 1, j);
    }
  }

  /** A completed run only sees uuids drawn. */
  predicate Resting(x: Kernel, k: Kernel) {
    Done(x) && Twin(x, k)
  }

  lemma {:induction false} DoneStays(setup: Setup, exec: Executors, ticks: Ticks, k: Kernel, at: nat, n: nat)
    requires Done(k)
    ensures Resting(Drive(setup, exec, ticks, k, at, n), k)
    decreases n
  {
    hide Iterate, Resume;
    if n > 0 {
      DoneStays(setup, exec, ticks, Poke(setup, exec, ticks(at), k), at + 1, n - 1);
    }
  }

  // ---- whole runs ----

  /** A completed run with pauses has a completed twin without them. */
  lemma {:induction false} TwinWithout(setup: Setup, o: Origin, exec: Executors, ticks: Ticks, others: Ticks, a: Kernel,
                                       b: Kernel,
                                       at: nat, from: nat, n: nat) returns (m: nat)
    requires Accepted(setup.workflow) && Sparing(setup, exec)
    requires Meet(setup, o, a, b) && Done(Drive(setup, exec, ticks, a, at, n))
    ensures
      var y := Drive(Strip(setup), StripExecutors(exec), others, b, from, m);
      Done(y) && Twin(Drive(setup, exec, ticks, a, at, n), y)
    decreases n
  {
    hide Accepted, Inv, Stuck, Strip, Poke, Sparing, OnTimeAt, StripExecutors, Meet, Dead;
    var s2, e2 := Strip(setup), StripExecutors(exec);
    var j := MacroStep(setup, o, exec, ticks, others(from), a, b, at);
    var left: nat := n - j;
    DriveSplit(setup, exec, ticks, a, at, j, left);
    var x, y := Drive(setup, exec, ticks, a, at, j), Poke(s2, e2, others(from), b);
    var z := Drive(setup, exec, ticks, a, at, n);
    assert z == Drive(setup, exec, ticks, x, at + j, left) && Done(z);
    DriveFour(s2, e2, others, b, from);
    if Meet(setup, o, x, y) {
      var rest := TwinWithout(setup, o, exec, ticks, others, x, y, at + j, from + 1, left);
      m := 1 + rest;
      DriveSplit(s2, e2, others, b, from, 1, rest);
    } else if Done(x) && Done(y) && Twin(x, y) {
      DoneStays(setup, exec, ticks, x, at + j, left);
      m := 1;
    } else {
      DoomedNeverDone(setup, o, exec, ticks, x, at + j, left);
    }
  }

  /** And the other way round, if every answer comes in time. */
  lemma {:induction false} TwinWith(setup: Setup, o: Origin, exec: Executors, ticks: Ticks, others: Ticks, a: Kernel,
                                    b: Kernel,
                                    at: nat, from: nat, m: nat) returns (n: nat)
    requires Accepted(setup.workflow) && Sparing(setup, exec)
    requires Meet(setup, o, a, b) && Done(Drive(Strip(setup), StripExecutors(exec), others, b, from, m))
    requires Timely(setup, exec, ticks, a, at)
    ensures Done(Drive(setup, exec, ticks, a, at, n))
    ensures n <= 4 * m
    decreases m
  {
    hide Accepted, Inv, Stuck, Strip, Poke, Sparing, OnTimeAt, StripExecutors, Drive, Dead;
    var s2, e2 := Strip(setup), StripExecutors(exec);
    var j := MacroStep(setup, o, exec, ticks, others(from), a, b, at);
    DriveFour(s2, e2, others, b, from);
    MeetNotDone(setup, o, a, b);
    DriveSplit(s2, e2, others, b, from, 1, m - 1);
    var x, y := Drive(setup, exec, ticks, a, at, j), Poke(s2, e2, others(from), b);
    assert EndAlike(setup, o, exec, x, y);
    if Meet(setup, o, x, y) {
      TimelyLater(setup, exec, ticks, a, at, j);
      var rest := TwinWith(setup, o, exec, ticks, others, x, y, at + j, from + 1, m - 1);
      n := j + rest;
      DriveSplit(setup, exec, ticks, a, at, j, rest);
    } else if Done(x) {
      n := j;
    } else {
      StripAccepted(setup);
      DoomedNeverDone(s2, o, e2, others, y, from + 1, m - 1);
    }
  }

  lemma TimelyLater(setup: Setup, exec: Executors, ticks: Ticks, k: Kernel, at: nat, j: nat)
    requires Timely(setup, exec, ticks, k, at)
    ensures Timely(setup, exec, ticks, Drive(setup, exec, ticks, k, at, j), at + j)
  {
    hide Poke, OnTime;
    var x := Drive(setup, exec, ticks, k, at, j);
    var later := at + j;
    forall n: nat ensures OnTimeAt(setup, exec, ticks, x, later, n) {
      DriveSplit(setup, exec, ticks, k, at, j, n);
      var sum := j + n;
      assert OnTimeAt(setup, exec, ticks, k, at, sum);
    }
  }

  lemma MeetNotDone(setup: Setup, o: Origin, a: Kernel, b: Kernel)
    requires Meet(setup, o, a, b)
    ensures !Done(a) && !Done(b)
  {
    hide Inv;
  }

  /** Every driven run is invariant or abandoned. */
  lemma PokeWorks(setup: Setup, o: Origin, exec: Executors, tick: Tick, k: Kernel)
    requires Accepted(setup.workflow) && Sound(setup, o, k)
    ensures Sound(setup, o, Poke(setup, exec, tick, k))
  {
    hide Accepted, Inv, Iterate, Resume;
    var d := Drawn(k, tick.drawn);
    NextWorks(setup, o, k, Others(tick.drawn));
    if d.phase.Advancing? {
      NextWorks(setup, o, d,
          Go(Turn(None, exec(d.state.currentStep.GetOr(""), d.phase.payload, d.state.artifacts, d.state.channels),
              tick.now)));
    } else if d.phase.Idle? {
      NextWorks(setup, o, d, Call(Approve, tick.now));
      NextWorks(setup, o, d, Call(Answer(d.state.pendingInterruptId.GetOr(""), Null, None), tick.now));
    }
  }

  lemma {:induction false} DriveWorks(setup: Setup, o: Origin, exec: Executors, ticks: Ticks, k: Kernel, at: nat,
                                      n: nat)
    requires Accepted(setup.workflow) && Sound(setup, o, k)
    ensures Sound(setup, o, Drive(setup, exec, ticks, k, at, n))
    decreases n
  {
    hide Accepted, Sound, Poke;
    if n > 0 {
      PokeWorks(setup, o, exec, ticks(at), k);
      DriveWorks(setup, o, exec, ticks, Poke(setup, exec, ticks(at), k), at + 1, n - 1);
    }
  }

  /** A run that completes has been answered in time all along. */
  lemma CompletedTimely(setup: Setup, o: Origin, exec: Executors, ticks: Ticks, k: Kernel, n: nat, late: nat)
    requires Accepted(setup.workflow) && Inv(setup, o, k) && Done(Drive(setup, exec, ticks, k, 0, n))
    ensures OnTimeAt(setup, exec, ticks, k, 0, late)
  {
    hide Accepted, Inv, Poke, Drive, Dead, Stuck;
    if !OnTimeAt(setup, exec, ticks, k, 0, late) {
      var x := Drive(setup, exec, ticks, k, 0, late);
      NotCrashed(setup, o, k);
      DriveWorks(setup, o, exec, ticks, k, 0, late);
      if n <= late {
        DriveSplit(setup, exec, ticks, k, 0, n, late - n);
        DoneStays(setup, exec, ticks, Drive(setup, exec, ticks, k, 0, n), n, late - n);
      } else {
        LatePoke(setup, o, exec, ticks(late), x);
        DriveNext(setup, exec, ticks, k, 0, late);
        DriveSplit(setup, exec, ticks, k, 0, late + 1, n - late - 1);
        DoomedNeverDone(setup, o, exec, ticks, Poke(setup, exec, ticks(late), x), late + 1, n - late - 1);
      }
    }
  }

  lemma LatePoke(setup: Setup, o: Origin, exec: Executors, tick: Tick, k: Kernel)
    requires Accepted(setup.workflow) && Sound(setup, o, k) && !OnTime(tick.now, k)
    ensures Dead(setup, o, Poke(setup, exec, tick, k))
  {
    hide Accepted, Inv, Move, Dead;
    DrawnWorks(setup, o, k, tick.drawn);
    LateAnswer(setup, o, exec, tick.now, Drawn(k, tick.drawn));
  }

  ghost predicate Completes(setup: Setup, exec: Executors, ticks: Ticks, k: Kernel) {
    exists n: nat :: Done(Drive(setup, exec, ticks, k, 0, n))
  }

  /** Pause transparency. Take an accepted class, deterministic executors of which a step named "" asks
      for no interrupt (nor any other under limit zero), and policies that allow; let each run have a
      clock of its own and share its runtime with any other runs. Started on the same data, the run that
      is granted every gate and answered None at every interrupt completes if and only if the run with
      gates and interrupt instructions stripped does and every answer came before its request expired;
      and then both show the same walk, completed steps, artifacts and channels. */
  lemma PausesAreTransparent(setup: Setup, exec: Executors, ticks: Ticks, others: Ticks, runId: string,
                             threadId: string, data: Value, issued: nat)
    requires Accepted(setup.workflow) && Sparing(setup, exec)
    ensures
      var a := Begin(setup, runId, threadId, setup.workflow.entry.value, data, issued);
      var b := Begin(Strip(setup), runId, threadId, setup.workflow.entry.value, data, issued);
      && (Completes(setup, exec, ticks, a) <==>
            Completes(Strip(setup), StripExecutors(exec), others, b) && Timely(setup, exec, ticks, a, 0))
      && (forall n: nat, m: nat |
            Done(Drive(setup, exec, ticks, a, 0, n))
              && Done(Drive(Strip(setup), StripExecutors(exec), others, b, 0, m)) ::
            Twin(Drive(setup, exec, ticks, a, 0, n), Drive(Strip(setup), StripExecutors(exec), others, b, 0, m)))
  {
    hide Inv, Stuck, Strip, Poke, Sparing, OnTimeAt, StripExecutors, Drive, Meet, Begin, Done, Closed, Coherent,
      Distinct;
    var entry := setup.workflow.entry.value;
    var o := Origin(None, Some(entry), [], {});
    var s2, e2 := Strip(setup), StripExecutors(exec);
    var a, b := Begin(setup, runId, threadId, entry, data, issued), Begin(s2, runId, threadId, entry, data, issued);
    BeginMeets(setup, runId, threadId, data, issued);
    MeetInv(setup, o, a, b);
    forall n: nat | Done(Drive(setup, exec, ticks, a, 0, n))
      ensures Completes(s2, e2, others, b) && Timely(setup, exec, ticks, a, 0)
    {
      var m := TwinWithout(setup, o, exec, ticks, others, a, b, 0, 0, n);
      forall late: nat ensures OnTimeAt(setup, exec, ticks, a, 0, late) {
        CompletedTimely(setup, o, exec, ticks, a, n, late);
      }
    }
    if Completes(s2, e2, others, b) && Timely(setup, exec, ticks, a, 0) {
      var m: nat :| Done(Drive(s2, e2, others, b, 0, m));
      var n := TwinWith(setup, o, exec, ticks, others, a, b, 0, 0, m);
    }
    forall n: nat, m: nat | Done(Drive(setup, exec, ticks, a, 0, n)) && Done(Drive(s2, e2, others, b, 0, m))
      ensures Twin(Drive(setup, exec, ticks, a, 0, n), Drive(s2, e2, others, b, 0, m))
    {
      var l := TwinWithout(setup, o, exec, ticks, others, a, b, 0, 0, n);
      SameEnd(s2, e2, others, b, l, m);
    }
  }

  lemma MeetInv(setup: Setup, o: Origin, a: Kernel, b: Kernel)
    requires Meet(setup, o, a, b)
    ensures Inv(setup, o, a)
  {
    hide Inv;
  }

  lemma SameEnd(setup: Setup, exec: Executors, ticks: Ticks, k: Kernel, n: nat, m: nat)
    requires Done(Drive(setup, exec, ticks, k, 0, n)) && Done(Drive(setup, exec, ticks, k, 0, m))
    ensures Twin(Drive(setup, exec, ticks, k, 0, n), Drive(setup, exec, ticks, k, 0, m))
  {
    hide Poke;
    if n <= m {
      DriveSplit(setup, exec, ticks, k, 0, n, m - n);
      DoneStays(setup, exec, ticks, Drive(setup, exec, ticks, k, 0, n), n, m - n);
    } else {
      DriveSplit(setup, exec, ticks, k, 0, m, n - m);
      DoneStays(setup, exec, ticks, Drive(setup, exec, ticks, k, 0, m), m, n - m);
    }
  }

  lemma BeginMeets(setup: Setup, runId: string, threadId: string, data: Value, issued: nat)
    requires Accepted(setup.workflow)
    ensures
      var entry := setup.workflow.entry.value;
      Meet(setup, Origin(None, Some(entry), [], {}), Begin(setup, runId, threadId, entry, data, issued),
           Begin(Strip(setup), runId, threadId, entry, data, issued))
  {
    hide Inv, Linked, Replay, Names, Closed, Coherent, Distinct, Begin;
    var entry := setup.workflow.entry.value;
    StripFinds(setup.workflow.steps, entry);
    BeginWorks(setup, runId, threadId, entry, data, issued);
    BeginWorks(Strip(setup), runId, threadId, entry, data, issued);
    BeginAlike(setup, runId, threadId, entry, data, issued);
    BeginBlank(setup, runId, threadId, entry, data, issued);
  }

  /** Beginning does not look at the steps. */
  lemma BeginAlike(setup: Setup, runId: string, threadId: string, entry: string, data: Value, issued: nat)
    ensures Begin(Strip(setup), runId, threadId, entry, data, issued)
      == Begin(setup, runId, threadId, entry, data, issued)
  {
    hide Save, Emit;
  }

  lemma BeginBlank(setup: Setup, runId: string, threadId: string, entry: string, data: Value, issued: nat)
    ensures Begin(setup, runId, threadId, entry, data, issued).state.approvedSteps == {}
  {
    hide Read;
  }
}
