/** Whole runs, accounted for: which labels begin executions, grant approvals, take answers and fail a run;
    how a run begins; and that every casing of "end" ends one. */
module Accounts {
  import opened Prelude
  import opened Values
  import opened RunStates
  import opened RunStore
  import opened Sequences
  import opened Workflows
  import opened Interrupts
  import opened InterruptManager
  import opened Lifecycle
  import opened LifecycleInvariants
  import opened LifecycleResults
  import opened PauseTransparency
  import opened StepEffects
  import opened Decisions

  // ---- whole runs: what begins executions and grants approvals ----

  /** The label is a turn that takes up a step that is supplied and permitted, and the policy does not deny it. */
  ghost predicate Begins(setup: Setup, k: Kernel, l: Label) {
    l.Go? && k.phase.Advancing? && l.turn.denied.None? &&
    exists step | step in setup.workflow.steps ::
      k.state.currentStep == Some(step.name) && Supplied(step, k.state) && Permitted(step, k.state)
  }

  /** The label is an approval, and the run is at rest waiting for one. */
  predicate Grants(k: Kernel, l: Label) {
    l.Call? && l.payload.Approve? && k.phase.Idle? && k.state.status == WAITING_APPROVAL
  }

  ghost function Begun(setup: Setup, k: Kernel, labels: seq<Label>): multiset<string>
    decreases |labels|
  {
    if labels == [] then multiset{}
    else
      (if Begins(setup, k, labels[0]) then multiset(ToSeq(k.state.currentStep)) else multiset{})
      + Begun(setup, Next(setup, k, labels[0]), labels[1..])
  }

  function Granted(setup: Setup, k: Kernel, labels: seq<Label>): multiset<Option<string>>
    decreases |labels|
  {
    if labels == [] then multiset{}
    else
      (if Grants(k, labels[0]) then multiset{k.state.currentStep} else multiset{})
      + Granted(setup, Next(setup, k, labels[0]), labels[1..])
  }

  /** The label is an answer that goes through, and the run is at rest waiting for one. */
  predicate Settles(k: Kernel, l: Label) {
    l.Call? && k.phase.Idle? && k.state.status == WAITING_INTERRUPT && GoesThrough(k, l.payload, l.now)
  }

  function Taken(setup: Setup, k: Kernel, labels: seq<Label>): nat
    decreases |labels|
  {
    if labels == [] then 0
    else (if Settles(k, labels[0]) then 1 else 0) + Taken(setup, Next(setup, k, labels[0]), labels[1..])
  }

  lemma TurnCounts(setup: Setup, o: Origin, k: Kernel, turn: Turn)
    requires Accepted(setup.workflow) && InLoop(setup, o, k)
    ensures Counted(k, Iterate(setup, k, turn),
      if Begins(setup, k, Go(turn)) then multiset(ToSeq(k.state.currentStep)) else multiset{}, multiset{}, 0)
  {
    hide Accepted, Inv, Iterate, Find, Supplied, Permitted, Emit, Execute, Complete, Answers, Counter, Written, Links,
      MissingArtifact, RequiresApproval, FailRun, AskApproval;
    CurrentFound(setup, o, k);
    IterateIs(setup, k, turn);
    if k.state.currentStep.None? {
      StopsCount(k, "", "", Null);
      StandsNowhere(setup, k, turn);
    } else {
      var step := Find(setup.workflow.steps, k.state.currentStep.value).value;
      SameStep(setup, step);
      TermsAgree(step, k.state);
      EmitCounts(k, StepEntered(step.name));
      var k1 := Emit(k, StepEntered(step.name));
      EmitCounts(k1, PolicyDenied(step.name));
      StopsCount(k1, "", step.name, k.phase.payload);
      StopsCount(Emit(k1, PolicyDenied(step.name)), turn.denied.GetOr(""), step.name, k.phase.payload);
      ExecuteCounts(setup, k1, step, k.phase.payload, turn);
    }
  }

  lemma StandsNowhere(setup: Setup, k: Kernel, turn: Turn)
    requires k.phase.Advancing? && k.state.currentStep.None?
    ensures Attempt(setup, k, k.phase.payload, turn) == Complete(k)
  {
    hide Complete;
  }

  lemma SameStep(setup: Setup, step: Step)
    requires Accepted(setup.workflow) && step in setup.workflow.steps
    ensures Find(setup.workflow.steps, step.name) == Some(step)
    ensures forall other | other in setup.workflow.steps && other.name == step.name :: other == step
  {
    hide Closed, Coherent, Find;
    forall other | other in setup.workflow.steps && other.name == step.name ensures other == step {
      StepFound(setup, other);
    }
    StepFound(setup, step);
  }

  lemma TendedCounter(desk: Store, runId: string, l: Label)
    ensures Counter(Tended(desk, runId, l), runId) == Counter(desk, runId)
  {
    hide RequestOf;
  }

  lemma NextCounts(setup: Setup, o: Origin, k: Kernel, l: Label)
    requires Accepted(setup.workflow) && Sound(setup, o, k)
    ensures Counted(k, Next(setup, k, l),
      if Begins(setup, k, l) then multiset(ToSeq(k.state.currentStep)) else multiset{},
      if Grants(k, l) then multiset{k.state.currentStep} else multiset{},
      if Settles(k, l) then 1 else 0)
  {
    hide Accepted, Inv, Unrecorded, Iterate, Tended, ResumeInterrupt, ResumeApproval, Begins, Answers, Counter, Written,
      Links, GoesThrough, Loose, Entering;
    match l
    case Go(turn) =>
      if k.phase.Advancing? {
        TurnCounts(setup, o, k, turn);
      } else {
        NoTurn(setup, k, l);
      }
    case Call(payload, now) =>
      NoTurn(setup, k, l);
      if k.phase.Idle? && k.state.status == WAITING_APPROVAL {
        ApprovalLoose(setup, o, k);
        ApprovalCounts(k, payload);
      } else if k.phase.Idle? && k.state.status == WAITING_INTERRUPT {
        AnswerCounts(setup, o, k, payload, now);
      }
    case Others(_) =>
      NoTurn(setup, k, l);
    case Lost =>
      NoTurn(setup, k, l);
      if !k.phase.Idle? {
        SameRun(setup, o, k);
      }
    case _ =>
      NoTurn(setup, k, l);
      TendedCounter(k.desk, k.state.runId, l);
  }

  lemma SameRun(setup: Setup, o: Origin, k: Kernel)
    requires Sound(setup, o, k)
    ensures k.stored.Some? && k.stored.value.runId == k.state.runId
  {
    hide Linked, OneOpen, Replay, CheckpointsPlaced, Story, Placed, TokensOk, HandoffsOk, WalkBase, Walkable;
  }

  lemma NoTurn(setup: Setup, k: Kernel, l: Label)
    requires !l.Go? || !k.phase.Advancing?
    ensures !Begins(setup, k, l)
  {
  }

  lemma {:induction false} RunCounts(setup: Setup, o: Origin, k: Kernel, labels: seq<Label>)
    requires Accepted(setup.workflow) && Sound(setup, o, k)
    ensures Counted(k, Run(setup, k, labels), Begun(setup, k, labels), Granted(setup, k, labels),
      Taken(setup, k, labels))
    decreases |labels|
  {
    hide Accepted, Sound, Next, Begins, Grants, Settles, Answers, Counter, Written, Links;
    if labels != [] {
      NextWorks(setup, o, k, labels[0]);
      NextCounts(setup, o, k, labels[0]);
      RunCounts(setup, o, Next(setup, k, labels[0]), labels[1..]);
    }
  }

  lemma BornSound(setup: Setup, b: Birth)
    requires Accepted(setup.workflow) && Genuine(setup, b)
    ensures Sound(setup, OriginOf(setup, b), Born(setup, b))
  {
    hide Run, Sound, Born, Accepted, Genuine;
    EntryThere(setup);
    Always(setup, b, []);
    NothingRun(setup, Born(setup, b));
  }

  lemma NothingRun(setup: Setup, k: Kernel)
    ensures Run(setup, k, []) == k
  {
  }

  lemma BornCounts(setup: Setup, b: Birth)
    requires Accepted(setup.workflow)
    ensures
      var k := Born(setup, b);
      && k.sum.attempts == multiset{} && k.sum.grants == multiset{} && Answers(k.trail) == 0
      && Counter(k.desk, k.state.runId) == 1 && k.state.runId == b.runId && Agrees(k)
  {
    hide Save, Closed, Coherent, Distinct, Answers;
    match b
    case Fresh(r, t, data, n) =>
      var s := BLANK.(runId := r, threadId := t, currentStep := setup.workflow.entry,
          channels := setup.channelDefaults);
      BlankCounts(s, n);
      SaveCounts(Newborn(s, n), s);
      if Save(Newborn(s, n), s).Success? {
        var k1 := Save(Newborn(s, n), s).value;
        EmitCounts(k1, RunStarted(setup.workflow.entry));
        var k2 := Emit(k1, RunStarted(setup.workflow.entry));
        SaveCounts(k2, k2.state.(status := RUNNING));
      }
    case Restored(snapshot, source, r, payload, n) =>
      var s := Cleaned(snapshot, r);
      BlankCounts(s, n);
      SaveCounts(Newborn(s, n), s);
      if Save(Newborn(s, n), s).Success? {
        var k1 := Save(Newborn(s, n), s).value;
        EmitCounts(k1, CheckpointRestored(source));
        EmitCounts(Emit(k1, CheckpointRestored(source)), RunStarted(s.currentStep));
      }
  }

  lemma BlankCounts(s: RunState, issued: nat)
    ensures
      var k := Newborn(s, issued);
      && k.sum.attempts == multiset{} && k.sum.grants == multiset{} && Answers(k.trail) == 0
      && Counter(k.desk, s.runId) == 1 && k.state.runId == s.runId && Agrees(k)
  {
  }

  /** Main result: the audit trail of a run shows as many executions begun of each step as there were turns
      that took it up supplied, permitted and not denied by the policy; as many approvals granted of it as
      there were calls that approved while the run waited there; and as many interrupts resolved as there
      were answers that named a pending request in time and under its epoch, each of which has moved the
      manager's counter by one. No other label begins, grants or resolves anything. The checkpoints reported
      are the run's, in order and each with its parent. */
  lemma EverythingAccounted(setup: Setup, b: Birth, labels: seq<Label>, step: string)
    requires Accepted(setup.workflow) && Genuine(setup, b)
    ensures
      var k := Later(setup, b, labels);
      && multiset(k.trail)[ExecutionStarted(step)] == Begun(setup, Born(setup, b), labels)[step]
      && multiset(k.trail)[ApprovalGranted(Some(step))] == Granted(setup, Born(setup, b), labels)[Some(step)]
      && Answers(k.trail) == Taken(setup, Born(setup, b), labels)
      && k.state.runId == b.runId && Counter(k.desk, b.runId) == 1 + Answers(k.trail)
      && |Written(k.trail)| == |k.lineage|
      && (forall i | 0 <= i < |k.lineage| ::
            Written(k.trail)[i] == (k.lineage[i].checkpointId, k.lineage[i].parentCheckpointId))
  {
    hide Run, Born, Genuine, Accepted, Begun, Granted, Taken, Storage, WalkBase, HandoffsOk, CheckpointsPlaced,
      TokensOk, Replay, Walkable, Inv, Answers, Counter, Written;
    EntryThere(setup);
    BornSound(setup, b);
    BornCounts(setup, b);
    AlwaysStands(setup, b, labels);
    RunCounts(setup, OriginOf(setup, b), Born(setup, b), labels);
    ReplayCounts(Later(setup, b, labels).trail, step);
  }

  lemma EntryThere(setup: Setup)
    requires Accepted(setup.workflow)
    ensures setup.workflow.entry.Some?
  {
  }

  // ---- whole runs: what fails them ----

  /** Nothing the step declares is pointed to, or the handoff does not land there. */
  ghost predicate Nowhere(setup: Setup, step: Step, out: Outcome)
    requires out.Finished? && step.transition.Some?
  {
    forall next ::
      !PointsTo(step.transition.value, Shown(out), Goto(out), setup.str, next)
        || !HandoffLands(setup.workflow.steps, next, Handoff(step, out))
  }

  /** A turn that takes up a step that is supplied and permitted fails the run: with the policy's reason, with
      the executor's error, or because of where the executor leads. */
  ghost predicate TurnFatal(setup: Setup, s: RunState, step: Step, turn: Turn)
    requires step.transition.Some?
  {
    || turn.denied.Some?
    || turn.outcome.Fails?
    || (turn.outcome.Finished?
        && (Strays(step, turn.outcome)
            || (CanFinish(setup, s, turn.outcome) && Nowhere(setup, step, turn.outcome)
                && !(turn.outcome.command.Some? && turn.outcome.command.value.interrupt.Some?))))
  }

  /** The label is a rejection while the run waits for approval, or such a turn. */
  ghost predicate Fatal(setup: Setup, k: Kernel, l: Label) {
    match l
    case Call(payload, _) => payload.Reject? && k.phase.Idle? && k.state.status == WAITING_APPROVAL
    case Go(turn) =>
      k.phase.Advancing? && exists step | step in setup.workflow.steps ::
        && k.state.currentStep == Some(step.name) && Supplied(step, k.state) && Permitted(step, k.state)
        && step.transition.Some? && TurnFatal(setup, k.state, step, turn)
    case _ => false
  }

  /** The reason, where the model keeps its text. */
  function Reason(l: Label): Option<string> {
    match l
    case Call(Reject(reason), _) => Some(reason)
    case Go(Turn(Some(reason), _, _)) => Some(reason)
    case Go(Turn(None, Fails(error), _)) => Some(error)
    case _ => None
  }

  lemma TurnFails(setup: Setup, o: Origin, k: Kernel, step: Step, turn: Turn)
    requires Facing(setup, o, k, step)
    ensures step.transition.Some?
    ensures
      var n := Iterate(setup, k, turn);
      && (n.state.status == FAILED <==>
            Supplied(step, k.state) && Permitted(step, k.state) && TurnFatal(setup, k.state, step, turn))
      && (n.state.status == FAILED && Reason(Go(turn)).Some? ==> n.state.error == Reason(Go(turn)))
  {
    hide Accepted, Inv, Iterate, Supplied, Permitted, CanFinish, Strays, OnRecord, GoesOn, Nowhere, Emit, Execute,
      Wrecked;
    TransitionPresent(setup.workflow, step);
    LoopIsLoose(setup, o, k);
    if !Supplied(step, k.state) {
      ShortageBreaks(setup, o, k, step, turn);
    } else if !Permitted(step, k.state) {
      GateAsks(setup, o, k, step, turn);
    } else if turn.denied.Some? {
      DenialFails(setup, o, k, step, turn);
    } else if !turn.outcome.Finished? || Strays(step, turn.outcome) {
      ExecutionStops(setup, o, k, step, turn);
    } else {
      ExecutionFinishes(setup, o, k, step, turn);
      if CanFinish(setup, k.state, turn.outcome) {
        WhereTo(setup, Iterate(setup, k, turn), step, turn.outcome);
      } else {
        IterateWorks(setup, o, k, turn);
        WreckedRunning(setup, o, Iterate(setup, k, turn));
      }
    }
  }

  lemma WhereTo(setup: Setup, n: Kernel, step: Step, out: Outcome)
    requires out.Finished? && step.transition.Some?
    ensures GoesOn(setup, n, step, out) ==> (n.state.status == FAILED <==> Nowhere(setup, step, out))
  {
    hide PointsTo, HandoffLands;
  }

  lemma WreckedRunning(setup: Setup, o: Origin, k: Kernel)
    requires Wrecked(setup, o, k)
    ensures k.state.status == RUNNING && StoredRunning(k)
  {
    hide Unrecorded;
  }

  lemma SaveStatus(k: Kernel, s: RunState)
    ensures Settle(Save(k, s)).state.status == s.status
  {
  }

  lemma TransitStatus(k: Kernel, step: string, next: string, handoff: Option<string>, payload: Value)
    requires k.state.status == RUNNING
    ensures Settle(Transit(k, step, next, handoff, payload)).state.status != FAILED
  {
    hide Save, Read;
    var k1 := if handoff.Some? then Emit(k, HandoffAccepted(handoff.value, next)) else k;
    var k2 := Emit(k1, TransitionChosen(step, next));
    SaveStatus(k2, k2.state.(currentStep := None, status := COMPLETED));
    SaveStatus(k2, k2.state.(currentStep := Some(next)));
  }

  lemma FollowStatus(setup: Setup, k: Kernel, response: Value)
    requires k.state.status == RUNNING
    ensures Settle(FollowContinuation(setup, k, response)).state.status != FAILED
  {
    hide Transit, RouteNext, Find;
    var c := k.state.pendingResume;
    var k1 := k.(state := k.state.(pendingResume := None));
    if c.Some? && Find(setup.workflow.steps, c.value.stepName).Some? {
      var step := Find(setup.workflow.steps, c.value.stepName).value;
      var r := RouteNext(step, c.value.output, setup.workflow.steps, c.value.handoff, c.value.command.goto, setup.str);
      if r.Success? {
        TransitStatus(k1, c.value.stepName, r.value, c.value.handoff,
            if response.Null? then c.value.output else response);
      }
    }
  }

  /** No answer fails a run. */
  lemma AnswerStatus(setup: Setup, k: Kernel, payload: ResumePayload, now: int)
    requires k.state.status == WAITING_INTERRUPT
    ensures Settle(ResumeInterrupt(setup, k, payload, now)).state.status != FAILED
  {
    hide Save, FollowContinuation, Settled, Read;
    if payload.Answer? {
      var c := Settled(k.desk, k.state.runId, payload.interruptId, Some(payload.epoch.GetOr(k.state.epoch)), now);
      var k0 := k.(desk := Bumped(c.0, k.state.runId));
      var s := k.state.(pendingInterruptId := None, status := RUNNING);
      SaveStatus(k0, s);
      if Save(k0, s).Success? {
        FollowStatus(setup, Emit(Save(k0, s).value, InterruptResolved(payload.interruptId)), payload.response);
      }
    }
  }

  lemma GoFatal(setup: Setup, o: Origin, k: Kernel, turn: Turn)
    requires Accepted(setup.workflow) && InLoop(setup, o, k)
    ensures
      var n := Iterate(setup, k, turn);
      && (n.state.status == FAILED <==> Fatal(setup, k, Go(turn)))
      && (n.state.status == FAILED && Reason(Go(turn)).Some? ==> n.state.error == Reason(Go(turn)))
  {
    hide Accepted, Inv, Iterate, Supplied, Permitted, TurnFatal, Find, Save, Reason;
    CurrentFound(setup, o, k);
    if k.state.currentStep.None? {
      IterateIs(setup, k, turn);
      StandsNowhere(setup, k, turn);
      SaveStatus(k, k.state.(currentStep := None, status := COMPLETED));
    } else {
      var step := Find(setup.workflow.steps, k.state.currentStep.value).value;
      SameStep(setup, step);
      TurnFails(setup, o, k, step, turn);
    }
  }

  lemma NextFails(setup: Setup, o: Origin, k: Kernel, l: Label)
    requires Accepted(setup.workflow) && Sound(setup, o, k)
    ensures
      var n := Next(setup, k, l);
      && (n.state.status == FAILED && k.state.status != FAILED <==> Fatal(setup, k, l))
      && (Fatal(setup, k, l) && Reason(l).Some? ==> n.state.error == Reason(l))
  {
    hide Accepted, Inv, Unrecorded, Iterate, Tended, ResumeInterrupt, ResumeApproval, TurnFatal, Supplied, Permitted;
    match l
    case Go(turn) =>
      if k.phase.Advancing? {
        LoopIsLoose(setup, o, k);
        GoFatal(setup, o, k, turn);
      }
    case Call(payload, now) =>
      if k.phase.Idle? && k.state.status == WAITING_APPROVAL {
        match payload
        case Approve => ApprovalOpens(setup, o, k, now);
        case Reject(reason) => RejectionFails(setup, o, k, reason, now);
        case Answer(_, _, _) => WrongPayloadIgnored(setup, k, payload, now);
      } else if k.phase.Idle? && k.state.status == WAITING_INTERRUPT {
        AnswerStatus(setup, k, payload, now);
      }
    case Lost =>
      if k.phase.Advancing? {
        LoopIsLoose(setup, o, k);
      } else if k.phase.Crashed? {
        WreckedRunning(setup, o, k);
      }
    case _ =>
  }

  /** Main result: the labels that fail a run are exactly the rejections while it waits for approval and the
      turns with a denial, a failed executor, a handoff that is not allowed or a target that is not declared;
      the run's error is then the reason that came with the label. */
  lemma FailuresExplained(setup: Setup, b: Birth, labels: seq<Label>, l: Label)
    requires Accepted(setup.workflow) && Genuine(setup, b)
    ensures
      var k := Later(setup, b, labels);
      var n := Later(setup, b, labels + [l]);
      && (n.state.status == FAILED && k.state.status != FAILED <==> Fatal(setup, k, l))
      && (Fatal(setup, k, l) && Reason(l).Some? ==> n.state.error == Reason(l))
  {
    hide Sound, Born, Accepted, Genuine, Next, Fatal, Reason;
    EntryThere(setup);
    Always(setup, b, labels);
    RunJoins(setup, Born(setup, b), labels, [l]);
    OneLabel(setup, Later(setup, b, labels), l);
    NextFails(setup, OriginOf(setup, b), Later(setup, b, labels), l);
  }

  lemma OneLabel(setup: Setup, k: Kernel, l: Label)
    ensures Run(setup, k, [l]) == Next(setup, k, l)
  {
    hide Next;
  }

  // ---- a run that has ended ----

  /** Nothing of a run that is over changes under any label but its place among uuids and requests. */
  predicate Unmoved(k: Kernel, n: Kernel) {
    n.state == k.state && n.stored == k.stored && n.lineage == k.lineage && n.trail == k.trail && n.sum == k.sum
      && n.phase == k.phase
  }

  lemma {:induction false} OverStays(setup: Setup, k: Kernel, labels: seq<Label>)
    requires k.phase.Idle? && Terminal(k.state.status)
    ensures Unmoved(k, Run(setup, k, labels))
    decreases |labels|
  {
    hide Iterate, ResumeApproval, ResumeInterrupt, Tended;
    if labels != [] {
      OverStays(setup, Next(setup, k, labels[0]), labels[1..]);
    }
  }

  /** Main result: a run rejected while it waited for approval is FAILED for the reason given, whatever
      comes after: no execution begins, no approval is granted, no token is gained. */
  lemma RejectedForGood(setup: Setup, b: Birth, labels: seq<Label>, reason: string, now: int, more: seq<Label>)
    requires Accepted(setup.workflow) && Genuine(setup, b)
    requires Later(setup, b, labels).phase.Idle? && Later(setup, b, labels).state.status == WAITING_APPROVAL
    ensures
      var k := Later(setup, b, labels);
      var n := Later(setup, b, labels + [Call(Reject(reason), now)] + more);
      && n.phase.Idle? && n.state.status == FAILED && n.state.error == Some(reason) && n.stored == Some(n.state)
      && n.sum.attempts == k.sum.attempts && n.sum.grants == k.sum.grants && n.sum.walk == k.sum.walk
      && n.state.approvedSteps == k.state.approvedSteps
  {
    hide Inv, Born, Accepted, Genuine, Resume;
    EntryThere(setup);
    var o := OriginOf(setup, b);
    var k := Later(setup, b, labels);
    var l := Call(Reject(reason), now);
    Always(setup, b, labels);
    RejectionFails(setup, o, k, reason, now);
    RunJoins(setup, Born(setup, b), labels, [l]);
    OneLabel(setup, k, l);
    RunJoins(setup, Born(setup, b), labels + [l], more);
    OverStays(setup, Later(setup, b, labels + [l]), more);
  }

  // ---- how a run begins ----

  /** A started run stands at the class's entry step with the channels' defaults and nothing else. */
  lemma StartsBlank(setup: Setup, runId: string, threadId: string, data: Value, issued: nat)
    requires Accepted(setup.workflow)
    ensures setup.workflow.entry.Some?
    ensures
      var k := Born(setup, Fresh(runId, threadId, data, issued));
      && k.phase == Advancing(data) && k.stored == Some(k.state) && |k.lineage| == 2
      && k.state.runId == runId && k.state.threadId == threadId && k.state.epoch == 2 && k.state.status == RUNNING
      && k.state.currentStep == setup.workflow.entry && k.state.completedSteps == [] && k.state.artifacts == map[]
      && k.state.channels == setup.channelDefaults && k.state.approvedSteps == {} && k.state.error == None
      && k.state.pendingApproval == None && k.state.pendingInterruptId == None && k.state.pendingInput == None
      && k.state.pendingResume == None && k.state.checkpointId == Some(Uuid(issued + 1))
      && k.state.parentCheckpointId == Some(Uuid(issued)) && k.lineage[0].parentCheckpointId == None
  {
    hide Closed, Coherent, Distinct, Read, Bumped;
  }

  /** A restored run goes on with what its checkpoint has, under an id and an epoch of its own, waiting for
      nothing; the checkpoint is the parent of its first. */
  lemma RestoresSnapshot(setup: Setup, snapshot: RunState, source: string, runId: string, payload: Value, issued: nat)
    requires setup.workflow.entry.Some?
    ensures
      var k := Born(setup, Restored(snapshot, source, runId, payload, issued));
      && k.phase == Advancing(payload) && k.stored == Some(k.state) && k.lineage == [k.state]
      && k.state.runId == runId && k.state.threadId == snapshot.threadId && k.state.epoch == 1
      && k.state.status == RUNNING && k.state.currentStep == snapshot.currentStep
      && k.state.completedSteps == snapshot.completedSteps && k.state.artifacts == snapshot.artifacts
      && k.state.channels == snapshot.channels && k.state.approvedSteps == snapshot.approvedSteps
      && k.state.error == None && k.state.pendingApproval == None && k.state.pendingInterruptId == None
      && k.state.pendingInput == None && k.state.pendingResume == None
      && k.state.checkpointId == Some(Uuid(issued)) && k.state.parentCheckpointId == snapshot.checkpointId
  {
    hide Read, Bumped;
  }

  // ---- references to the end ----

  /** A class of one ungated step as its builder leaves it. */
  function Single(name: string, executor: Executor, raw: Transition): Workflow {
    Workflow([Step(name, executor, [], None, Some(false), Some(Normalized(raw)), Some(ModeOf(raw)))], Some(name))
  }

  /** Written as the target of a class of one step, a text is accepted exactly when it is the step's name,
      END_STEP, or "end" in whatever casing. */
  lemma SingleAccepted(name: string, executor: Executor, target: string)
    ensures Accepted(Single(name, executor, StrictTransition(target))) <==>
      Lowercase(target) == "end" || target == "__END__" || target == name
  {
    hide Lowercase, NormalizeStepRef;
    CasingsOfEnd(target);
    var wf := Single(name, executor, StrictTransition(target));
    assert wf.steps[0] in wf.steps;
    assert Names(wf.steps) == {name};
    assert Targets(wf.steps[0].transition.value) == {Denoted(target)};
    if Lowercase(target) == "end" || target == "__END__" || target == name {
      assert Closed(wf.steps);
    }
  }

  /** Routed among texts of which one is "end" in some casing, a step that says "end" in any casing ends its
      run. */
  lemma SingleCompletes(setup: Setup, name: string, executor: Executor, allowed: seq<string>, ref: string,
                        said: string, output: map<string, Value>, runId: string, threadId: string, data: Value,
                        issued: nat, now: int)
    requires setup.workflow == Single(name, executor, BoundedRoutingTransition(allowed))
    requires forall a | a in allowed :: Lowercase(a) == "end" || a == name
    requires ref in allowed && Lowercase(ref) == "end" && Lowercase(said) == "end"
    requires "next_step" in output && output["next_step"] == Text(said)
    ensures Accepted(setup.workflow)
    ensures
      var k := Born(setup, Fresh(runId, threadId, data, issued));
      var n := Next(setup, k, Go(Turn(None, Finished(Dict(output), None, None), now)));
      && n.phase == Idle && n.state.status == COMPLETED && n.state.completedSteps == [name]
      && n.state.artifacts == map[name := Dict(output)]
  {
    hide Lowercase, NormalizeStepRef, Normalized, Born, Iterate, Inv, Accepted, OnRecord, CanFinish, Supplied,
      Permitted, Strays, GoesOn;
    var raw := BoundedRoutingTransition(allowed);
    var step := setup.workflow.steps[0];
    NormalizedStands(raw);
    var t := Normalized(raw);
    assert step.transition == Some(t) && setup.workflow.steps == [step];
    var i :| 0 <= i < |allowed| && allowed[i] == ref;
    assert t.allowed[i] == "__END__";
    SingleBounded(setup.workflow, step, t);
    var b := Fresh(runId, threadId, data, issued);
    var k := Born(setup, b);
    BornSound(setup, b);
    StartsBlank(setup, runId, threadId, data, issued);
    var out := Finished(Dict(output), None, None);
    NothingAsked(setup, step, k.state, out);
    ExecutionFinishes(setup, OriginOf(setup, b), k, step, Turn(None, out, now));
    assert PointsTo(t, Shown(out), Goto(out), setup.str, "__END__");
    assert HandoffLands(setup.workflow.steps, "__END__", Handoff(step, out));
    PointedEnds(setup, Iterate(setup, k, Turn(None, out, now)), step, out);
    FirstOnRecord(setup, k.state, Iterate(setup, k, Turn(None, out, now)).state, step, Dict(output));
  }

  lemma NothingAsked(setup: Setup, step: Step, s: RunState, out: Outcome)
    requires step.requiredArtifacts == [] && step.approvalOverride == Some(false)
    requires out.Finished? && out.command.None? && out.handoff.None?
    ensures Supplied(step, s) && Permitted(step, s) && !Strays(step, out) && CanFinish(setup, s, out)
  {
  }

  lemma PointedEnds(setup: Setup, n: Kernel, step: Step, out: Outcome)
    requires out.Finished? && step.transition.Some? && GoesOn(setup, n, step, out)
    requires PointsTo(step.transition.value, Shown(out), Goto(out), setup.str, "__END__")
    requires HandoffLands(setup.workflow.steps, "__END__", Handoff(step, out))
    ensures n.phase == Idle && n.state.status == COMPLETED
  {
    hide PointsTo, HandoffLands;
  }

  lemma FirstOnRecord(setup: Setup, before: RunState, after: RunState, step: Step, shown: Value)
    requires before.artifacts == map[] && before.completedSteps == [] && step.emittedArtifact == None
    requires OnRecord(setup, before, after, step, shown, map[])
    ensures after.completedSteps == [step.name] && after.artifacts == map[step.name := shown]
  {
  }

  lemma SingleBounded(wf: Workflow, step: Step, t: Transition)
    requires wf == Workflow([step], Some(step.name)) && step.transition == Some(t) && step.mode == Some(BoundedRouting)
    requires t.BoundedRoutingTransition?
    requires forall i | 0 <= i < |t.allowed| :: t.allowed[i] == "__END__" || t.allowed[i] == step.name
    ensures Accepted(wf)
  {
    assert step in wf.steps;
    assert step.name in Names(wf.steps);
  }
}
