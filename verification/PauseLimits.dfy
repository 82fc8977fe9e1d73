/** Where pause transparency ends: a run that comes to a step at which no interrupt can be asked for and
    left again, one named "" or any step under limit zero, while its executor asks for one there. */
module PauseLimits {
  import opened Prelude
  import opened Values
  import opened RunStates
  import opened Workflows
  import opened Interrupts
  import opened InterruptManager
  import opened Lifecycle
  import opened LifecycleInvariants
  import opened PauseTransparency
  import opened StepEffects

  /** An interrupt asked for here is refused, or brings the run back here once it is answered. */
  predicate Unsafe(setup: Setup, step: string) {
    step == "" || setup.maxPending == 0
  }

  /** At unsafe steps nothing finishes without asking for an interrupt. */
  ghost predicate Barred(setup: Setup, exec: Executors) {
    forall step, payload, artifacts, channels ::
      Unsafe(setup, step) && exec(step, payload, artifacts, channels).Finished? ==>
        Interrupting(exec(step, payload, artifacts, channels))
  }

  predicate Over(k: Kernel) {
    k.phase.Crashed? || (k.phase.Idle? && k.state.status == FAILED)
  }

  function Raw(exec: Executors, k: Kernel): Outcome
    requires k.phase.Advancing?
  {
    exec(k.state.currentStep.GetOr(""), k.phase.payload, k.state.artifacts, k.state.channels)
  }

  /** The run waits on a request it can answer until it expires. */
  predicate Prompt(k: Kernel, expiresAt: int) {
    && k.phase.Idle? && k.state.status == WAITING_INTERRUPT && k.state.pendingInterruptId.Some?
    && var q := RequestOf(k.desk, k.state.runId, k.state.pendingInterruptId.value);
       q.Some? && q.value.status.Pending? && q.value.epoch == k.state.epoch && q.value.expiresAt == expiresAt
  }

  /** How an execution leaves the run if it neither fails nor crashes. */
  predicate Finishes(setup: Setup, raw: Outcome, now: int, k: Kernel, n: Kernel) {
    && raw.Finished? && n.sum.walk == k.sum.walk + [k.state.currentStep.GetOr("")]
    && if Interrupting(raw)
       then && setup.maxPending > 0 && n.state.currentStep == k.state.currentStep
            && Prompt(n, now + raw.command.value.interrupt.value.ttlSeconds.GetOr(setup.defaultTtl))
       else Done(n) || n.phase.Advancing?
  }

  /** One move in the loop: the run is over, is complete, asks for approval, or has executed its step. */
  lemma MoveInLoop(setup: Setup, o: Origin, exec: Executors, now: int, k: Kernel)
    requires Accepted(setup.workflow) && InLoop(setup, o, k)
    ensures
      var n := Move(setup, exec, now, k);
      && (n.phase.Crashed? || Inv(setup, o, n))
      && (|| Over(n)
          || (k.state.currentStep.None? && Done(n) && Twin(n, k))
          || (k.state.currentStep.Some? && n.phase.Idle? && n.state.status == WAITING_APPROVAL && Twin(n, k))
          || (k.state.currentStep.Some? && Finishes(setup, Raw(exec, k), now, k, n)))
  {
    hide Accepted, Inv, Iterate, Complete, Find, MissingArtifact, RequiresApproval, CannotFinish, Names, Finishes, Twin;
    var turn := Turn(None, Raw(exec, k), now);
    IterateWorks(setup, o, k, turn);
    CurrentFound(setup, o, k);
    if k.state.currentStep.None? {
      CompleteView(setup, o, k);
      NoStepMove(setup, exec, now, k);
    } else if !Abandons(setup, k.state, turn) {
      var step := Find(setup.workflow.steps, k.state.currentStep.value).value;
      if RequiresApproval(step, k.state) {
        GateAsks(setup, o, exec, now, k, step);
      } else {
        MoveExecutes(setup, o, exec, now, k, step);
      }
    }
  }

  lemma NoStepMove(setup: Setup, exec: Executors, now: int, k: Kernel)
    requires k.phase.Advancing? && k.state.currentStep.None?
    ensures Move(setup, exec, now, k) == Settle(Complete(k))
  {
    hide Complete;
  }

  /** A gate that has not been granted is asked about. */
  lemma GateAsks(setup: Setup, o: Origin, exec: Executors, now: int, k: Kernel, step: Step)
    requires Accepted(setup.workflow) && InLoop(setup, o, k) && step in setup.workflow.steps
    requires k.state.currentStep == Some(step.name) && !MissingArtifact(step, k.state.artifacts)
      && RequiresApproval(step, k.state)
    ensures
      var n := Move(setup, exec, now, k);
      n.phase.Idle? && n.state.status == WAITING_APPROVAL && Twin(n, k)
  {
    hide Accepted, Inv, Loose, AskApproval, Emit, Find, MissingArtifact, Gated, Entering, TokensOk, Walkable;
    StepFound(setup, step);
    LoopIsLoose(setup, o, k);
    LooseEmit(setup, o, k, StepEntered(step.name));
    EmitState(k, StepEntered(step.name));
    AskView(setup, o, Emit(k, StepEntered(step.name)), step.name, k.phase.payload);
  }

  lemma MoveExecutes(setup: Setup, o: Origin, exec: Executors, now: int, k: Kernel, step: Step)
    requires Accepted(setup.workflow) && InLoop(setup, o, k) && step in setup.workflow.steps
    requires k.state.currentStep == Some(step.name) && !MissingArtifact(step, k.state.artifacts)
      && !RequiresApproval(step, k.state)
    requires !Abandons(setup, k.state, Turn(None, Raw(exec, k), now))
    ensures
      var n := Move(setup, exec, now, k);
      || Over(n)
      || (Raw(exec, k).NeedsApproval? && n.phase.Idle? && n.state.status == WAITING_APPROVAL && Twin(n, k))
      || Finishes(setup, Raw(exec, k), now, k, n)
  {
    hide Accepted, Inv, Iterate, Find, MissingArtifact, RequiresApproval, CannotFinish, AskApproval, FailRun, Finish,
      RouteNext, Emit, Loose, Entering, HandedOn, RequestOf;
    var raw := Raw(exec, k);
    var out := Admitted(step, raw);
    var turn := Turn(None, raw, now);
    StepFound(setup, step);
    Fired(setup, o, k, step);
    FireIs(setup, exec, now, k, step);
    var k2 := Entered(k, step.name);
    match out
    case NeedsApproval => AskView(setup, o, k2, step.name, k.phase.payload);
    case Fails(error) => FailIdle(setup, o, k2, error);
    case Finished(_, _, _) =>
      if Interrupting(raw) {
        CannotWithoutLimit(setup, k.state, out.command);
        StepPauses(setup, o, k, step, turn);
      } else {
        StepHandsOn(setup, o, k, step, turn);
      }
  }

  lemma CannotWithoutLimit(setup: Setup, s: RunState, command: Option<Command>)
    requires command.Some? && command.value.interrupt.Some? && !CannotFinish(setup, s, command)
    ensures setup.maxPending > 0
  {
    hide ApplyUpdate;
  }

  // ---- a run that comes to such a step ----

  /** It is there, asks there, waits there, or is over. */
  ghost predicate Trapped(setup: Setup, o: Origin, k: Kernel) {
    || Over(k) || Dead(setup, o, k)
    || (Inv(setup, o, k) && k.state.currentStep.Some? && Unsafe(setup, k.state.currentStep.value))
  }

  lemma TrappedNotDone(setup: Setup, o: Origin, k: Kernel)
    requires Trapped(setup, o, k)
    ensures !Done(k)
  {
    hide Storage, Synced, OneOpen, CheckpointsPlaced, Replay, TokensOk, HandoffsOk, WalkOk, Placed, AuditOk;
  }

  lemma TrappedMoves(setup: Setup, o: Origin, exec: Executors, now: int, k: Kernel)
    requires Accepted(setup.workflow) && Barred(setup, exec) && Trapped(setup, o, k)
    ensures Trapped(setup, o, Move(setup, exec, now, k))
  {
    hide Accepted, Inv, Dead, Barred, Iterate, Resume, Finishes;
    if Over(k) {
    } else if Dead(setup, o, k) {
      DeadIs(setup, o, k);
      LateAnswer(setup, o, exec, now, k);
    } else if k.phase.Advancing? {
      MoveInLoop(setup, o, exec, now, k);
      BarredFinish(setup, exec, now, k, Move(setup, exec, now, k));
    } else if k.state.status == WAITING_APPROVAL {
      GrantStays(setup, o, exec, now, k);
    } else if k.state.status == WAITING_INTERRUPT {
      AnswerReturns(setup, o, exec, now, k);
    }
  }

  lemma BarredFinish(setup: Setup, exec: Executors, now: int, k: Kernel, n: Kernel)
    requires Barred(setup, exec) && k.phase.Advancing? && k.state.currentStep.Some?
      && Unsafe(setup, k.state.currentStep.value)
    ensures Finishes(setup, Raw(exec, k), now, k, n) ==> n.state.currentStep == k.state.currentStep
  {
    hide Prompt;
  }

  lemma GrantStays(setup: Setup, o: Origin, exec: Executors, now: int, k: Kernel)
    requires Accepted(setup.workflow) && Inv(setup, o, k) && k.phase.Idle? && k.state.status == WAITING_APPROVAL
    ensures
      var n := Move(setup, exec, now, k);
      InLoop(setup, o, n) && Twin(n, k)
  {
    hide Inv, Accepted, ResumeApproval;
    ResumeApprovalWorks(setup, o, k, Approve);
    ApproveView(setup, o, k);
  }

  /** Under a limit an unsafe step is named "": answered, the run is there again, or it waits for good. */
  lemma AnswerReturns(setup: Setup, o: Origin, exec: Executors, now: int, k: Kernel)
    requires Accepted(setup.workflow) && Inv(setup, o, k) && k.phase.Idle? && k.state.status == WAITING_INTERRUPT
    requires k.state.currentStep.Some? && Unsafe(setup, k.state.currentStep.value)
    ensures Trapped(setup, o, Move(setup, exec, now, k))
  {
    hide Inv, Accepted, Resume, RequestOf, Dead, OnTime, Names;
    InterruptLoose(setup, o, k);
    OpenIs(k.desk, k.state.runId, k.state.epoch, k.issued, k.state.pendingInterruptId.value);
    var q := RequestOf(k.desk, k.state.runId, k.state.pendingInterruptId.value);
    if OnTime(now, k) && q.Some? && q.value.status.Pending? {
      OnTimeIs(now, k);
      PlacedCurrent(setup, k.state);
      var step := Find(setup.workflow.steps, "").value;
      AnswerHandsOn(setup, o, k, step, Null, now);
      ResumeWorks(setup, o, k, Answer(k.state.pendingInterruptId.value, Null, None), now);
    } else {
      SettledIsDead(setup, o, now, k);
      LateAnswer(setup, o, exec, now, k);
    }
  }

  lemma DrawnTrapped(setup: Setup, o: Origin, k: Kernel, drawn: nat)
    requires Trapped(setup, o, k)
    ensures Trapped(setup, o, Drawn(k, drawn))
  {
    hide Inv;
    if !Over(k) {
      DrawnWorks(setup, o, k, drawn);
    }
  }

  lemma {:induction false} TrappedForGood(setup: Setup, o: Origin, exec: Executors, ticks: Ticks, k: Kernel, at: nat,
                                          n: nat)
    requires Accepted(setup.workflow) && Barred(setup, exec) && Trapped(setup, o, k)
    ensures !Done(Drive(setup, exec, ticks, k, at, n))
    decreases n
  {
    hide Accepted, Barred, Trapped, Move, Done, Drawn;
    if n == 0 {
      TrappedNotDone(setup, o, k);
    } else {
      DrawnTrapped(setup, o, k, ticks(at).drawn);
      TrappedMoves(setup, o, exec, ticks(at).now, Drawn(k, ticks(at).drawn));
      TrappedForGood(setup, o, exec, ticks, Poke(setup, exec, ticks(at), k), at + 1, n - 1);
    }
  }

  // ---- executors that differ at unsafe steps alone ----

  ghost predicate AgreeElsewhere(setup: Setup, exec: Executors, other: Executors) {
    forall step, payload, artifacts, channels | !Unsafe(setup, step) ::
      exec(step, payload, artifacts, channels) == other(step, payload, artifacts, channels)
  }

  lemma MoveElsewhere(setup: Setup, o: Origin, exec: Executors, other: Executors, now: int, k: Kernel)
    requires AgreeElsewhere(setup, exec, other) && Sound(setup, o, k) && !Trapped(setup, o, k)
    ensures Move(setup, exec, now, k) == Move(setup, other, now, k)
  {
    hide Inv, Wrecked, Iterate, Resume, Complete, Dead;
    if k.phase.Advancing? && k.state.currentStep.None? {
      NoStepMove(setup, exec, now, k);
      NoStepMove(setup, other, now, k);
    }
  }

  /** A barred run that completes never comes to an unsafe step: other executors that agree elsewhere make
      it the same run. */
  lemma {:induction false} CompletesElsewhere(setup: Setup, o: Origin, exec: Executors, other: Executors, ticks: Ticks,
                                              k: Kernel,
                                              at: nat, n: nat)
    requires Accepted(setup.workflow) && Barred(setup, exec) && AgreeElsewhere(setup, exec, other) && Sound(setup, o, k)
    requires Done(Drive(setup, exec, ticks, k, at, n))
    ensures Drive(setup, other, ticks, k, at, n) == Drive(setup, exec, ticks, k, at, n)
    decreases n
  {
    hide Accepted, Barred, AgreeElsewhere, Sound, Trapped, Move, Done, Drawn;
    if n > 0 {
      var d := Drawn(k, ticks(at).drawn);
      DrawnSound(setup, o, k, ticks(at).drawn);
      if Trapped(setup, o, d) {
        TrappedMoves(setup, o, exec, ticks(at).now, d);
        TrappedForGood(setup, o, exec, ticks, Poke(setup, exec, ticks(at), k), at + 1, n - 1);
      }
      MoveElsewhere(setup, o, exec, other, ticks(at).now, d);
      PokeWorks(setup, o, exec, ticks(at), k);
      CompletesElsewhere(setup, o, exec, other, ticks, Poke(setup, exec, ticks(at), k), at + 1, n - 1);
    }
  }

  lemma DrawnSound(setup: Setup, o: Origin, k: Kernel, drawn: nat)
    requires Accepted(setup.workflow) && Sound(setup, o, k)
    ensures Sound(setup, o, Drawn(k, drawn))
  {
    hide Accepted, Sound;
    NextWorks(setup, o, k, Others(drawn));
  }

  // ---- what a completed run has executed ----

  ghost predicate AllSafe(setup: Setup, walk: seq<string>) {
    forall i | 0 <= i < |walk| :: !Unsafe(setup, walk[i])
  }

  ghost predicate NeverInterrupts(exec: Executors) {
    forall step, payload, artifacts, channels :: !Interrupting(exec(step, payload, artifacts, channels))
  }

  lemma MoveSafe(setup: Setup, o: Origin, exec: Executors, now: int, k: Kernel)
    requires Accepted(setup.workflow) && NeverInterrupts(exec) && Sound(setup, o, k) && !Trapped(setup, o, k)
    requires AllSafe(setup, k.sum.walk) && k.state.status != WAITING_INTERRUPT
    ensures
      var n := Move(setup, exec, now, k);
      Over(n) || (AllSafe(setup, n.sum.walk) && n.state.status != WAITING_INTERRUPT)
  {
    hide Accepted, Inv, Wrecked, Iterate, Resume, Dead;
    if k.phase.Advancing? {
      MoveInLoop(setup, o, exec, now, k);
      MovedStatus(setup, o, Move(setup, exec, now, k));
    } else if k.phase.Idle? && k.state.status == WAITING_APPROVAL {
      GrantStays(setup, o, exec, now, k);
      MovedStatus(setup, o, Move(setup, exec, now, k));
    }
  }

  lemma MovedStatus(setup: Setup, o: Origin, k: Kernel)
    ensures InLoop(setup, o, k) ==> k.state.status == RUNNING
  {
    hide Storage, Synced, OneOpen, CheckpointsPlaced, Replay, Story;
  }

  lemma {:induction false} CompletedSafe(setup: Setup, o: Origin, exec: Executors, ticks: Ticks, k: Kernel, at: nat,
                                         n: nat)
    requires Accepted(setup.workflow) && Barred(setup, exec) && NeverInterrupts(exec) && Sound(setup, o, k)
    requires AllSafe(setup, k.sum.walk) && k.state.status != WAITING_INTERRUPT
    requires Done(Drive(setup, exec, ticks, k, at, n))
    ensures AllSafe(setup, Drive(setup, exec, ticks, k, at, n).sum.walk)
    decreases n
  {
    hide Accepted, Barred, NeverInterrupts, Sound, Trapped, Move, Done, AllSafe, Over;
    if n > 0 {
      var d := Drawn(k, ticks(at).drawn);
      DrawnSound(setup, o, k, ticks(at).drawn);
      if Trapped(setup, o, d) {
        TrappedMoves(setup, o, exec, ticks(at).now, d);
        TrappedForGood(setup, o, exec, ticks, Poke(setup, exec, ticks(at), k), at + 1, n - 1);
      }
      MoveSafe(setup, o, exec, ticks(at).now, d);
      PokeWorks(setup, o, exec, ticks(at), k);
      if Over(Poke(setup, exec, ticks(at), k)) {
        OverForGood(setup, o, exec, ticks, Poke(setup, exec, ticks(at), k), at + 1, n - 1);
      }
      CompletedSafe(setup, o, exec, ticks, Poke(setup, exec, ticks(at), k), at + 1, n - 1);
    }
  }

  lemma OverForGood(setup: Setup, o: Origin, exec: Executors, ticks: Ticks, k: Kernel, at: nat, n: nat)
    requires Accepted(setup.workflow) && Over(k)
    ensures !Done(Drive(setup, exec, ticks, k, at, n))
  {
    hide Accepted, Stuck, Dead, Poke, Done;
    DoomedNeverDone(setup, o, exec, ticks, k, at, n);
  }

  // ---- executors made to ask, and made not to ----

  const NEUTRAL := Command(None, map[], None, None)

  /** With a command, if one that does nothing. */
  function Commanded(out: Outcome): Outcome {
    if out.Finished? && out.command.None? then out.(command := Some(NEUTRAL)) else out
  }

  function Asking(out: Outcome): Outcome {
    if out.Finished?
    then out.(command := Some(Commanded(out).command.value.(interrupt := Some(InterruptInstruction(Some(1))))))
    else out
  }

  /** Asks at every unsafe step it finishes, for an answer within a second, and nowhere else. */
  function Loud(setup: Setup, exec: Executors): Executors {
    (step, payload, artifacts, channels) => LoudOutcome(setup, step, exec(step, payload, artifacts, channels))
  }

  function LoudOutcome(setup: Setup, step: string, out: Outcome): Outcome {
    if Unsafe(setup, step) then Asking(out) else StripOutcome(out)
  }

  /** Fails at every unsafe step it would finish, and asks nowhere. */
  function Gagged(setup: Setup, exec: Executors): Executors {
    (step, payload, artifacts, channels) => GaggedOutcome(setup, step, exec(step, payload, artifacts, channels))
  }

  function GaggedOutcome(setup: Setup, step: string, out: Outcome): Outcome {
    if Unsafe(setup, step) && out.Finished? then Fails("") else StripOutcome(out)
  }

  /** Fails instead of asking. */
  function Hushed(exec: Executors): Executors {
    (step, payload, artifacts, channels) => HushedOutcome(exec(step, payload, artifacts, channels))
  }

  function HushedOutcome(out: Outcome): Outcome {
    if Interrupting(out) then Fails("") else out
  }

  lemma MadeToAsk(setup: Setup, exec: Executors)
    ensures Barred(setup, Loud(setup, exec)) && Sparing(setup, Gagged(setup, exec)) && Sparing(setup, Hushed(exec))
    ensures AgreeElsewhere(setup, Loud(setup, exec), Gagged(setup, exec))
    ensures Barred(Strip(setup), StripExecutors(Gagged(setup, exec)))
      && NeverInterrupts(StripExecutors(Gagged(setup, exec)))
    ensures AgreeElsewhere(Strip(setup), StripExecutors(Gagged(setup, exec)), StripExecutors(exec))
  {
    hide LoudOutcome, GaggedOutcome, HushedOutcome, Interrupting, StripOutcome, Unsafe;
    forall step, payload, artifacts, channels
      ensures MadeOutcomes(setup, step, exec(step, payload, artifacts, channels)) {
      OutcomesMade(setup, step, exec(step, payload, artifacts, channels));
    }
  }

  /** What the three make of one outcome. */
  predicate MadeOutcomes(setup: Setup, step: string, out: Outcome) {
    var l, g := LoudOutcome(setup, step, out), GaggedOutcome(setup, step, out);
    && (Unsafe(setup, step) && l.Finished? ==> Interrupting(l))
    && !Interrupting(g) && !Interrupting(HushedOutcome(out)) && !Interrupting(StripOutcome(g))
    && (Unsafe(setup, step) ==> !g.Finished? && !StripOutcome(g).Finished?)
    && (!Unsafe(setup, step) ==> l == g && StripOutcome(g) == StripOutcome(out))
    && Unsafe(Strip(setup), step) == Unsafe(setup, step)
  }

  lemma OutcomesMade(setup: Setup, step: string, out: Outcome)
    ensures MadeOutcomes(setup, step, out)
  {
  }

  // ---- a command that does nothing changes nothing ----

  lemma CommandedFinish(setup: Setup, k: Kernel, step: Step, out: Outcome, now: int)
    requires out.Finished?
    ensures Finish(setup, k, step, Commanded(out), now) == Finish(setup, k, step, out, now)
  {
    hide Save, ApplyUpdate, Pause, RouteNext, Transit, FailRun;
  }

  lemma CommandedIterate(setup: Setup, k: Kernel, out: Outcome, now: int)
    requires k.phase.Advancing?
    ensures Iterate(setup, k, Turn(None, Commanded(out), now)) == Iterate(setup, k, Turn(None, out, now))
  {
    hide Finish, Complete, FailRun, AskApproval, MissingArtifact, RequiresApproval, Find, Emit;
    if k.state.currentStep.Some? && Find(setup.workflow.steps, k.state.currentStep.value).Some? {
      var step := Find(setup.workflow.steps, k.state.currentStep.value).value;
      var k1 := Emit(k, StepEntered(step.name));
      var k2 := Emit(Emit(k1, ExecutionStarted(step.name)), ExecutionCompleted(step.name));
      assert Admitted(step, Commanded(out)) == Commanded(Admitted(step, out));
      if Admitted(step, out).Finished? {
        CommandedFinish(setup, k2, step, Admitted(step, out), now);
      }
    }
  }

  lemma StrippedLoud(setup: Setup, step: string, out: Outcome)
    ensures StripOutcome(LoudOutcome(setup, step, out)) in {StripOutcome(out), Commanded(StripOutcome(out))}
  {
  }

  lemma LoudMove(setup: Setup, exec: Executors, s: Setup, now: int, k: Kernel)
    ensures Move(s, StripExecutors(Loud(setup, exec)), now, k) == Move(s, StripExecutors(exec), now, k)
  {
    hide Iterate, Resume;
    if k.phase.Advancing? {
      StrippedLoud(setup, k.state.currentStep.GetOr(""), Raw(exec, k));
      CommandedIterate(s, k, StripOutcome(Raw(exec, k)), now);
    }
  }

  /** Without its pauses the loud run is the run it was made from. */
  lemma {:induction false} LoudStripped(setup: Setup, exec: Executors, s: Setup, ticks: Ticks, k: Kernel, at: nat,
                                        n: nat)
    ensures Drive(s, StripExecutors(Loud(setup, exec)), ticks, k, at, n)
      == Drive(s, StripExecutors(exec), ticks, k, at, n)
    decreases n
  {
    hide Move, StripExecutors, Loud;
    if n > 0 {
      LoudMove(setup, exec, s, ticks(at).now, Drawn(k, ticks(at).drawn));
      LoudStripped(setup, exec, s, ticks, Poke(s, StripExecutors(exec), ticks(at), k), at + 1, n - 1);
    }
  }

  // ---- and its answers come in time ----

  /** Time stands still. */
  const STILL: Ticks := n => Tick(0, 0)

  /** Interrupts are asked for at unsafe steps alone, for a second. */
  ghost predicate Brief(setup: Setup, exec: Executors) {
    forall step, payload, artifacts, channels :: BriefOutcome(setup, step, exec(step, payload, artifacts, channels))
  }

  predicate Answering(setup: Setup, k: Kernel) {
    k.phase.Idle? && k.state.status == WAITING_INTERRUPT ==>
      Prompt(k, 1) && k.state.currentStep.Some? && Unsafe(setup, k.state.currentStep.value)
  }

  lemma BriefMoves(setup: Setup, o: Origin, exec: Executors, k: Kernel)
    requires Accepted(setup.workflow) && Brief(setup, exec) && Sound(setup, o, k) && Answering(setup, k)
    ensures Answering(setup, Move(setup, exec, 0, k))
  {
    hide Accepted, Inv, Wrecked, Iterate, Resume, Prompt;
    if k.phase.Advancing? {
      MoveInLoop(setup, o, exec, 0, k);
    } else if k.phase.Idle? && k.state.status == WAITING_APPROVAL {
      GrantStays(setup, o, exec, 0, k);
    } else if k.phase.Idle? && k.state.status == WAITING_INTERRUPT {
      AnswerBack(setup, o, exec, k);
    }
  }

  lemma AnswerBack(setup: Setup, o: Origin, exec: Executors, k: Kernel)
    requires Accepted(setup.workflow) && Inv(setup, o, k) && Prompt(k, 1)
    requires k.state.currentStep.Some? && Unsafe(setup, k.state.currentStep.value)
    ensures Move(setup, exec, 0, k).phase.Advancing?
  {
    hide Inv, Accepted, Resume, RequestOf, Names;
    InterruptLoose(setup, o, k);
    PlacedCurrent(setup, k.state);
    AnswerHandsOn(setup, o, k, Find(setup.workflow.steps, "").value, Null, 0);
  }

  lemma PromptOnTime(setup: Setup, k: Kernel)
    requires Answering(setup, k)
    ensures OnTime(0, k)
  {
  }

  lemma {:induction false} BriefAnswering(setup: Setup, o: Origin, exec: Executors, k: Kernel, at: nat, n: nat)
    requires Accepted(setup.workflow) && Brief(setup, exec) && Sound(setup, o, k) && Answering(setup, k)
    ensures Answering(setup, Drive(setup, exec, STILL, k, at, n))
    decreases n
  {
    hide Accepted, Brief, Sound, Answering, Move;
    if n > 0 {
      assert Drawn(k, 0) == k;
      BriefMoves(setup, o, exec, k);
      PokeWorks(setup, o, exec, Tick(0, 0), k);
      BriefAnswering(setup, o, exec, Poke(setup, exec, Tick(0, 0), k), at + 1, n - 1);
    }
  }

  lemma BriefTimely(setup: Setup, o: Origin, exec: Executors, k: Kernel)
    requires Accepted(setup.workflow) && Brief(setup, exec) && Sound(setup, o, k) && Answering(setup, k)
    ensures Timely(setup, exec, STILL, k, 0)
  {
    hide Accepted, Brief, Sound, Answering, Poke, OnTime;
    forall n: nat ensures OnTimeAt(setup, exec, STILL, k, 0, n) {
      BriefAnswering(setup, o, exec, k, 0, n);
      PromptOnTime(setup, Drive(setup, exec, STILL, k, 0, n));
    }
  }

  // ---- for which classes every executor is transparent ----

  /** What pause transparency says of whether the run completes. */
  ghost predicate Transparent(setup: Setup, exec: Executors, ticks: Ticks, others: Ticks, a: Kernel, b: Kernel) {
    Completes(setup, exec, ticks, a) <==>
      Completes(Strip(setup), StripExecutors(exec), others, b) && Timely(setup, exec, ticks, a, 0)
  }

  lemma BornSound(setup: Setup, runId: string, threadId: string, data: Value, issued: nat)
    requires Accepted(setup.workflow)
    ensures
      var entry := setup.workflow.entry.value;
      var a := Begin(setup, runId, threadId, entry, data, issued);
      && Sound(setup, Origin(None, Some(entry), [], {}), a) && Answering(setup, a)
      && a.sum.walk == [] && a.state.status != WAITING_INTERRUPT
  {
    hide Inv, Closed, Coherent, Distinct, Begin;
    var entry := setup.workflow.entry.value;
    BeginWorks(setup, runId, threadId, entry, data, issued);
    NothingWalked(setup, runId, threadId, entry, data, issued);
    MovedStatus(setup, Origin(None, Some(entry), [], {}), Begin(setup, runId, threadId, entry, data, issued));
  }

  lemma NothingWalked(setup: Setup, runId: string, threadId: string, entry: string, data: Value, issued: nat)
    ensures Begin(setup, runId, threadId, entry, data, issued).sum.walk == []
  {
    hide Consistent;
  }

  /** If a run without its pauses completes through an unsafe step, some executors are not transparent: made
      to ask at the unsafe steps they finish, and answered at once, they never complete, while without the
      pauses they complete as before. */
  lemma UnsafeNotTransparent(setup: Setup, exec: Executors, others: Ticks, runId: string, threadId: string, data: Value,
                             issued: nat,
                             m: nat, u: string)
    requires Accepted(setup.workflow) && Unsafe(setup, u)
    requires
      var y := Drive(Strip(setup), StripExecutors(exec), others,
                     Begin(Strip(setup), runId, threadId, setup.workflow.entry.value, data, issued), 0, m);
      Done(y) && u in y.sum.walk
    ensures !Transparent(setup, Loud(setup, exec), STILL, others,
        Begin(setup, runId, threadId, setup.workflow.entry.value, data, issued),
                         Begin(Strip(setup), runId, threadId, setup.workflow.entry.value, data, issued))
  {
    hide Strip, Begin, Drive, Done, Closed, Coherent, Distinct, StripExecutors, Loud, Sound, Answering, Gagged, Timely;
    var entry := setup.workflow.entry.value;
    var o := Origin(None, Some(entry), [], {});
    var a, b := Begin(setup, runId, threadId, entry, data, issued),
      Begin(Strip(setup), runId, threadId, entry, data, issued);
    BornSound(setup, runId, threadId, data, issued);
    LoudIsBrief(setup, exec);
    BriefTimely(setup, o, Loud(setup, exec), a);
    LoudStripped(setup, exec, Strip(setup), others, b, 0, m);
    forall n: nat ensures !Done(Drive(setup, Loud(setup, exec), STILL, a, 0, n)) {
      LoudNeverDone(setup, exec, others, runId, threadId, data, issued, m, u, n);
    }
  }

  lemma LoudIsBrief(setup: Setup, exec: Executors)
    ensures Brief(setup, Loud(setup, exec))
  {
    hide LoudOutcome, Interrupting, Unsafe;
    forall step: string, out: Outcome ensures BriefOutcome(setup, step, LoudOutcome(setup, step, out)) {
      LoudAsksBriefly(setup, step, out);
    }
  }

  predicate BriefOutcome(setup: Setup, step: string, out: Outcome) {
    Interrupting(out) ==> Unsafe(setup, step) && out.command.value.interrupt.value.ttlSeconds == Some(1)
  }

  lemma LoudAsksBriefly(setup: Setup, step: string, out: Outcome)
    ensures BriefOutcome(setup, step, LoudOutcome(setup, step, out))
  {
  }

  lemma LoudNeverDone(setup: Setup, exec: Executors, others: Ticks, runId: string, threadId: string, data: Value,
                      issued: nat,
                      m: nat, u: string, n: nat)
    requires Accepted(setup.workflow) && Unsafe(setup, u)
    requires
      var y := Drive(Strip(setup), StripExecutors(exec), others,
                     Begin(Strip(setup), runId, threadId, setup.workflow.entry.value, data, issued), 0, m);
      Done(y) && u in y.sum.walk
    ensures !Done(Drive(setup, Loud(setup, exec), STILL,
        Begin(setup, runId, threadId, setup.workflow.entry.value, data, issued), 0, n))
  {
    hide Strip, Begin, Drive, Done, Closed, Coherent, Distinct, StripExecutors, Loud, Sound, Gagged, Timely, Sparing,
      Barred, AgreeElsewhere, NeverInterrupts, Answering;
    var entry := setup.workflow.entry.value;
    var o := Origin(None, Some(entry), [], {});
    var s2, g := Strip(setup), Gagged(setup, exec);
    var e2, f2 := StripExecutors(g), StripExecutors(exec);
    var a, b := Begin(setup, runId, threadId, entry, data, issued), Begin(s2, runId, threadId, entry, data, issued);
    MadeToAsk(setup, exec);
    BornSound(setup, runId, threadId, data, issued);
    if Done(Drive(setup, Loud(setup, exec), STILL, a, 0, n)) {
      CompletesElsewhere(setup, o, Loud(setup, exec), g, STILL, a, 0, n);
      PausesAreTransparent(setup, g, STILL, others, runId, threadId, data, issued);
      assert Completes(setup, g, STILL, a);
      var l: nat :| Done(Drive(s2, e2, others, b, 0, l));
      StrippedBorn(setup, runId, threadId, data, issued);
      CompletesElsewhere(s2, o, e2, f2, others, b, 0, l);
      CompletedSafe(s2, o, e2, others, b, 0, l);
      SameEnd(s2, f2, others, b, l, m);
      SafeNot(setup, Drive(s2, f2, others, b, 0, l).sum.walk, u);
    }
  }

  lemma SafeNot(setup: Setup, walk: seq<string>, u: string)
    requires AllSafe(Strip(setup), walk) && Unsafe(setup, u)
    ensures u !in walk
  {
  }

  lemma StrippedBorn(setup: Setup, runId: string, threadId: string, data: Value, issued: nat)
    requires Accepted(setup.workflow)
    ensures
      var entry := setup.workflow.entry.value;
      var b := Begin(Strip(setup), runId, threadId, entry, data, issued);
      && Accepted(Strip(setup).workflow) && Sound(Strip(setup), Origin(None, Some(entry), [], {}), b)
      && AllSafe(Strip(setup), b.sum.walk) && b.state.status != WAITING_INTERRUPT
  {
    hide Closed, Coherent, Distinct, Begin, Sound;
    StripAccepted(setup);
    BornSound(Strip(setup), runId, threadId, data, issued);
  }

  /** Under limit zero an interrupt fails the move that asks for it. */
  lemma HushedMove(setup: Setup, o: Origin, exec: Executors, now: int, k: Kernel)
    requires Accepted(setup.workflow) && Sound(setup, o, k) && setup.maxPending == 0
    ensures Over(Move(setup, exec, now, k)) || Move(setup, exec, now, k) == Move(setup, Hushed(exec), now, k)
  {
    hide Accepted, Inv, Wrecked, Iterate, Resume, Complete, Find, MissingArtifact, RequiresApproval, CannotFinish,
      Names, Twin;
    if k.phase.Advancing? && Interrupting(Raw(exec, k)) {
      var turn := Turn(None, Raw(exec, k), now);
      IterateWorks(setup, o, k, turn);
      CurrentFound(setup, o, k);
      if k.state.currentStep.None? {
        NoStepMove(setup, exec, now, k);
        NoStepMove(setup, Hushed(exec), now, k);
      } else if !Abandons(setup, k.state, turn) {
        var step := Find(setup.workflow.steps, k.state.currentStep.value).value;
        if RequiresApproval(step, k.state) {
          GateIgnores(setup, exec, Hushed(exec), now, k, step);
        } else {
          MoveExecutes(setup, o, exec, now, k, step);
        }
      }
    }
  }

  lemma GateIgnores(setup: Setup, exec: Executors, other: Executors, now: int, k: Kernel, step: Step)
    requires k.phase.Advancing? && k.state.currentStep.Some?
      && Find(setup.workflow.steps, k.state.currentStep.value) == Some(step)
    requires RequiresApproval(step, k.state)
    ensures Move(setup, exec, now, k) == Move(setup, other, now, k)
  {
    hide Find, MissingArtifact, RequiresApproval, AskApproval, Emit, Execute, FailRun;
  }

  lemma {:induction false} HushedCompletes(setup: Setup, o: Origin, exec: Executors, ticks: Ticks, k: Kernel, at: nat,
                                           n: nat)
    requires Accepted(setup.workflow) && Sound(setup, o, k) && setup.maxPending == 0
    requires Done(Drive(setup, exec, ticks, k, at, n))
    ensures Done(Drive(setup, Hushed(exec), ticks, k, at, n))
    decreases n
  {
    hide Accepted, Sound, Move, Done, Hushed, Over;
    if n > 0 {
      var d := Drawn(k, ticks(at).drawn);
      DrawnSound(setup, o, k, ticks(at).drawn);
      HushedMove(setup, o, exec, ticks(at).now, d);
      PokeWorks(setup, o, exec, ticks(at), k);
      if Over(Poke(setup, exec, ticks(at), k)) {
        OverForGood(setup, o, exec, ticks, Poke(setup, exec, ticks(at), k), at + 1, n - 1);
      }
      HushedCompletes(setup, o, exec, ticks, Poke(setup, exec, ticks(at), k), at + 1, n - 1);
    }
  }

  /** A completed run has executed a step. */
  lemma DoneWalked(setup: Setup, o: Origin, k: Kernel)
    requires Sound(setup, o, k) && Done(k) && setup.maxPending == 0 && o.start.Some?
    ensures k.sum.walk != []
  {
    hide Storage, Synced, OneOpen, CheckpointsPlaced, Replay, TokensOk, HandoffsOk, Path;
  }

  /** In a class without a step named "" every executor is transparent, whenever its answers come, if and
      only if interrupts are allowed at all or no run of the class completes even without pauses. */
  lemma TransparentExactly(setup: Setup, others: Ticks, runId: string, threadId: string, data: Value, issued: nat)
    requires Accepted(setup.workflow) && WellNamed(setup)
    ensures
      var a := Begin(setup, runId, threadId, setup.workflow.entry.value, data, issued);
      var b := Begin(Strip(setup), runId, threadId, setup.workflow.entry.value, data, issued);
      (forall exec, ticks :: Transparent(setup, exec, ticks, others, a, b)) <==>
        setup.maxPending > 0 || forall exec :: !Completes(Strip(setup), StripExecutors(exec), others, b)
  {
    hide Strip, Begin, Completes, Timely, Closed, Coherent, Distinct, StripExecutors, Hushed, Loud, Transparent;
    var entry := setup.workflow.entry.value;
    var a, b := Begin(setup, runId, threadId, entry, data, issued),
      Begin(Strip(setup), runId, threadId, entry, data, issued);
    if setup.maxPending > 0 {
      forall exec, ticks ensures Transparent(setup, exec, ticks, others, a, b) {
        NamedTransparent(setup, exec, ticks, others, runId, threadId, data, issued);
      }
    } else if exec :| Completes(Strip(setup), StripExecutors(exec), others, b) {
      ZeroNotTransparent(setup, exec, others, runId, threadId, data, issued);
      assert !Transparent(setup, Loud(setup, exec), STILL, others, a, b);
    } else {
      forall exec, ticks ensures Transparent(setup, exec, ticks, others, a, b) {
        ZeroNeverCompletes(setup, exec, ticks, others, runId, threadId, data, issued);
      }
    }
  }

  lemma NamedTransparent(setup: Setup, exec: Executors, ticks: Ticks, others: Ticks, runId: string, threadId: string,
                         data: Value,
                         issued: nat)
    requires Accepted(setup.workflow) && WellNamed(setup) && setup.maxPending > 0
    ensures Transparent(setup, exec, ticks, others,
        Begin(setup, runId, threadId, setup.workflow.entry.value, data, issued),
                        Begin(Strip(setup), runId, threadId, setup.workflow.entry.value, data, issued))
  {
    hide Strip, Begin, Completes, Timely, Closed, Coherent, Distinct, StripExecutors;
    PausesAreTransparent(setup, exec, ticks, others, runId, threadId, data, issued);
  }

  lemma ZeroNotTransparent(setup: Setup, exec: Executors, others: Ticks, runId: string, threadId: string, data: Value,
                           issued: nat)
    requires Accepted(setup.workflow) && setup.maxPending == 0
    requires Completes(Strip(setup), StripExecutors(exec), others,
                       Begin(Strip(setup), runId, threadId, setup.workflow.entry.value, data, issued))
    ensures !Transparent(setup, Loud(setup, exec), STILL, others,
        Begin(setup, runId, threadId, setup.workflow.entry.value, data, issued),
                         Begin(Strip(setup), runId, threadId, setup.workflow.entry.value, data, issued))
  {
    hide Strip, Begin, Drive, Done, Timely, Closed, Coherent, Distinct, StripExecutors, Loud, Sound, Transparent;
    var entry := setup.workflow.entry.value;
    var o := Origin(None, Some(entry), [], {});
    var b := Begin(Strip(setup), runId, threadId, entry, data, issued);
    var m: nat :| Done(Drive(Strip(setup), StripExecutors(exec), others, b, 0, m));
    var y := Drive(Strip(setup), StripExecutors(exec), others, b, 0, m);
    StrippedBorn(setup, runId, threadId, data, issued);
    StrippedLimit(setup);
    DriveWorks(Strip(setup), o, StripExecutors(exec), others, b, 0, m);
    DoneWalked(Strip(setup), o, y);
    UnsafeNotTransparent(setup, exec, others, runId, threadId, data, issued, m, y.sum.walk[0]);
  }

  lemma StrippedLimit(setup: Setup)
    ensures Strip(setup).maxPending == setup.maxPending
  {
  }

  lemma ZeroNeverCompletes(setup: Setup, exec: Executors, ticks: Ticks, others: Ticks, runId: string, threadId: string,
                           data: Value,
                           issued: nat)
    requires Accepted(setup.workflow) && setup.maxPending == 0
    requires forall e :: !Completes(Strip(setup), StripExecutors(e), others,
                                    Begin(Strip(setup), runId, threadId, setup.workflow.entry.value, data, issued))
    ensures Transparent(setup, exec, ticks, others,
        Begin(setup, runId, threadId, setup.workflow.entry.value, data, issued),
                        Begin(Strip(setup), runId, threadId, setup.workflow.entry.value, data, issued))
  {
    hide Strip, Begin, Drive, Done, Timely, Closed, Coherent, Distinct, StripExecutors, Hushed, Sound, Sparing, Barred,
      AgreeElsewhere, NeverInterrupts;
    var entry := setup.workflow.entry.value;
    var o := Origin(None, Some(entry), [], {});
    var a := Begin(setup, runId, threadId, entry, data, issued);
    BornSound(setup, runId, threadId, data, issued);
    MadeToAsk(setup, exec);
    PausesAreTransparent(setup, Hushed(exec), ticks, others, runId, threadId, data, issued);
    assert !Completes(setup, Hushed(exec), ticks, a);
    forall n: nat ensures !Done(Drive(setup, exec, ticks, a, 0, n)) {
      assert !Done(Drive(setup, Hushed(exec), ticks, a, 0, n));
      if Done(Drive(setup, exec, ticks, a, 0, n)) {
        HushedCompletes(setup, o, exec, ticks, a, 0, n);
      }
    }
  }
}
