/** A step named "". Answering its interrupt follows no saved transition (local.py:416), so the step is
    executed again: the one way a run leaves its declared transitions, with its exact condition. */
module NamelessStep {
  import opened Prelude
  import opened Values
  import opened RunStates
  import opened Sequences
  import opened Workflows
  import opened Interrupts
  import opened Lifecycle
  import opened LifecycleInvariants
  import opened LifecycleResults
  import opened Reloading
  import opened Acyclic
  import opened PauseTransparency
  import opened StepEffects

  /** A run restored where it is about to execute the step, with the artifacts and the token it needs. */
  function AtNameless(step: Step): RunState {
    BLANK.(status := RUNNING, currentStep := Some(step.name), approvedSteps := {step.name},
           artifacts := map a | a in step.requiredArtifacts :: Null)
  }

  const ASKS := Finished(Null, None, Some(Command(None, map[], Some(InterruptInstruction(Some(1))), None)))

  /** An iteration of such a step that asks for an interrupt, and the answer None in time: the run stands at
      the step it has just executed, about to execute it again. */
  lemma RepeatsAfterAnswer(setup: Setup, o: Origin, k: Kernel, step: Step)
    requires Accepted(setup.workflow) && InLoop(setup, o, k) && setup.maxPending > 0
    requires step in setup.workflow.steps && step.name == "" && k.state.currentStep == Some("")
    requires !MissingArtifact(step, k.state.artifacts) && !RequiresApproval(step, k.state)
    ensures
      var paused := Iterate(setup, k, Turn(None, ASKS, 0));
      && paused.phase.Idle? && paused.state.pendingInterruptId.Some?
      && var n := Resume(setup, paused, Answer(paused.state.pendingInterruptId.value, Null, None), 0);
         && n.phase == Advancing(Null) && n.state.currentStep == Some("") && n.sum.walk == k.sum.walk + [""]
         && Inv(setup, o, n) && (forall a | a in k.state.artifacts :: a in n.state.artifacts)
  {
    hide Accepted, Inv, Iterate, Resume, MissingArtifact, RequiresApproval, RequestOf, ApplyUpdate;
    NothingToApply(setup, k.state.channels);
    StepPauses(setup, o, k, step, Turn(None, ASKS, 0));
    var paused := Iterate(setup, k, Turn(None, ASKS, 0));
    AnswerHandsOn(setup, o, paused, step, Null, 0);
    ResumeWorks(setup, o, paused, Answer(paused.state.pendingInterruptId.value, Null, None), 0);
  }

  /** Such a run, from its restored checkpoint. */
  lemma NamelessRun(setup: Setup, step: Step) returns (b: Birth, labels: seq<Label>)
    requires Accepted(setup.workflow) && setup.maxPending > 0 && step in setup.workflow.steps && step.name == ""
    ensures Genuine(setup, b)
    ensures
      var k := Later(setup, b, labels);
      && k.phase == Advancing(Null) && k.state.currentStep == Some("") && k.sum.walk == [""]
         && Inv(setup, OriginOf(setup, b), k)
      && !MissingArtifact(step, k.state.artifacts)
  {
    hide Closed, Coherent, Distinct, Inv, Iterate, Resume, MissingArtifact, Restore, RequiresApproval, WalkOk;
    var s := AtNameless(step);
    b := Restored(s, "c", "r", Null, 0);
    var o, k := OriginOf(setup, b), Born(setup, b);
    RestoreWorks(setup, s, "c", "r", Null, 0);
    RestoredSum(s, "c", "r", Null, 0, "");
    RestoredWalk(s, "c", "r", Null, 0);
    ReadyThere(step, k);
    RepeatsAfterAnswer(setup, o, k, step);
    var paused := Iterate(setup, k, Turn(None, ASKS, 0));
    labels := [Go(Turn(None, ASKS, 0)), Call(Answer(paused.state.pendingInterruptId.value, Null, None), 0)];
    TwoSteps(setup, k, labels[0], labels[1]);
    MoreArtifacts(step, k.state.artifacts, Later(setup, b, labels).state.artifacts);
  }

  lemma MoreArtifacts(step: Step, a: map<string, Value>, b: map<string, Value>)
    requires !MissingArtifact(step, a) && forall x | x in a :: x in b
    ensures !MissingArtifact(step, b)
  {
  }

  lemma ReadyThere(step: Step, k: Kernel)
    requires k.state.artifacts == AtNameless(step).artifacts && k.state.approvedSteps == {step.name}
    ensures !MissingArtifact(step, k.state.artifacts) && !RequiresApproval(step, k.state)
  {
  }

  lemma RestoredWalk(snapshot: RunState, source: string, runId: string, payload: Value, issued: nat)
    ensures Restore(snapshot, source, runId, payload, issued).sum.walk == []
  {
    hide Consistent;
  }

  lemma TwoSteps(setup: Setup, k: Kernel, l: Label, m: Label)
    ensures Run(setup, k, [l, m]) == Next(setup, Next(setup, k, l), m)
  {
    hide Next;
    assert [l, m][1..] == [m];
    assert [m][1..] == [];
    assert Run(setup, k, [l, m]) == Run(setup, Next(setup, k, l), [m]);
  }

  ghost predicate Walks(setup: Setup, b: Birth, labels: seq<Label>)
    requires setup.workflow.entry.Some?
  {
    var k := Later(setup, b, labels);
    var o, walk := OriginOf(setup, b), ExecutedSteps(k.trail);
    && WalkBase(setup.workflow.steps, o, walk)
    && (!k.phase.Crashed? ==> WalkOk(setup.workflow.steps, o, k.state.status, walk, k.state.currentStep))
  }

  /** Every run of a class stays on declared transitions exactly when no step is named "", or none can be
      interrupted, or the step named "" declares itself as a target. */
  lemma WalksExactly(setup: Setup)
    requires Accepted(setup.workflow)
    ensures (forall b, labels | Genuine(setup, b) :: Walks(setup, b, labels)) <==> Walkable(setup)
  {
    hide Walks, Closed, Coherent, Distinct, Genuine, Edge, Inv, Later, WalkOk;
    if Walkable(setup) {
      forall b, labels | Genuine(setup, b) ensures Walks(setup, b, labels) {
        WalksThere(setup, b, labels);
      }
    } else {
      var step := Find(setup.workflow.steps, "").value;
      var b, labels := NamelessRun(setup, step);
      OffTheWalk(setup, b, labels);
    }
  }

  lemma WalksThere(setup: Setup, b: Birth, labels: seq<Label>)
    requires Accepted(setup.workflow) && Genuine(setup, b) && Walkable(setup)
    ensures Walks(setup, b, labels)
  {
    hide Closed, Coherent, Distinct, Genuine, WalkOk, WalkBase, Later, ExecutedSteps, Walkable;
    EveryRunIsAWalk(setup, b, labels);
  }

  lemma OffTheWalk(setup: Setup, b: Birth, labels: seq<Label>)
    requires Accepted(setup.workflow) && !Edge(setup.workflow.steps, "", Some(""))
    requires
      var k := Later(setup, b, labels);
      k.phase == Advancing(Null) && k.state.currentStep == Some("") && k.sum.walk == [""]
        && Inv(setup, OriginOf(setup, b), k)
    ensures !Walks(setup, b, labels)
  {
    hide Closed, Coherent, Distinct, Edge, Storage, OneOpen, Replay, CheckpointsPlaced, TokensOk, Later, AddAll, Path;
    ReplayWalks(Later(setup, b, labels).trail);
  }

  // ---- what depends on it ----

  /** At a step named "" again, the run executes it a second time. */
  lemma NamelessRepeats(setup: Setup, step: Step) returns (b: Birth, labels: seq<Label>)
    requires Accepted(setup.workflow) && setup.maxPending > 0 && step in setup.workflow.steps && step.name == ""
    ensures Genuine(setup, b) && ExecutedSteps(Later(setup, b, labels).trail) == ["", ""]
  {
    hide Closed, Coherent, Distinct, Inv, Iterate, Resume, MissingArtifact, RequiresApproval, Genuine, Born, Run,
      Replay, ExecutedSteps, WalkOk, ApplyUpdate;
    var first;
    b, first := NamelessRun(setup, step);
    var o, k := OriginOf(setup, b), Later(setup, b, first);
    var more, y := Admission(setup, o, k, step);
    NothingToApply(setup, y.state.channels);
    StepPauses(setup, o, y, step, Turn(None, ASKS, 0));
    var n := Iterate(setup, y, Turn(None, ASKS, 0));
    InvReplays(setup, o, n);
    labels := first + (more + [Go(Turn(None, ASKS, 0))]);
    RunJoins(setup, Born(setup, b), first, more + [Go(Turn(None, ASKS, 0))]);
    RunJoins(setup, k, more, [Go(Turn(None, ASKS, 0))]);
    OneStep(setup, y, Go(Turn(None, ASKS, 0)));
    ReplayWalks(n.trail);
  }

  lemma InvReplays(setup: Setup, o: Origin, k: Kernel)
    requires Inv(setup, o, k)
    ensures k.sum == Replay(k.trail)
  {
    hide Storage, OneOpen, Story, CheckpointsPlaced, Replay;
  }

  lemma OneStep(setup: Setup, k: Kernel, l: Label)
    ensures Run(setup, k, [l]) == Next(setup, k, l)
  {
    hide Next;
    assert [l][1..] == [];
    assert Run(setup, Next(setup, k, l), []) == Next(setup, k, l);
  }

  /** Asking and being granted, if the step needs it, brings the run to where it can be executed. */
  lemma Admission(setup: Setup, o: Origin, k: Kernel, step: Step) returns (labels: seq<Label>, y: Kernel)
    requires Accepted(setup.workflow) && InLoop(setup, o, k) && step in setup.workflow.steps
    requires k.state.currentStep == Some(step.name) && !MissingArtifact(step, k.state.artifacts)
    ensures y == Run(setup, k, labels) && InLoop(setup, o, y) && Twin(y, k) && !RequiresApproval(step, y.state)
  {
    hide Accepted, Inv, Iterate, Resume, MissingArtifact, RequiresApproval, Run;
    if RequiresApproval(step, k.state) {
      var exec: Executors := (s, p, a, c) => ASKS;
      var turn := Turn(None, ASKS, 0);
      GateOpens(setup, o, exec, 0, Tick(0, 0), k, step);
      var x := Iterate(setup, k, turn);
      labels := [Go(turn), Call(Approve, 0)];
      TwoSteps(setup, k, labels[0], labels[1]);
      GateAsks(setup, o, k, step, turn);
      y := Resume(setup, x, Approve, 0);
      assert Drawn(x, 0) == x;
      assert y == Poke(setup, exec, Tick(0, 0), x);
    } else {
      labels, y := [], k;
      assert Run(setup, k, []) == k by {
        NoLabels(setup, k);
      }
    }
  }

  lemma NoLabels(setup: Setup, k: Kernel)
    ensures Run(setup, k, []) == k
  {
  }

  lemma GateAsks(setup: Setup, o: Origin, k: Kernel, step: Step, turn: Turn)
    requires Accepted(setup.workflow) && InLoop(setup, o, k) && step in setup.workflow.steps
    requires k.state.currentStep == Some(step.name) && !MissingArtifact(step, k.state.artifacts)
      && RequiresApproval(step, k.state)
    ensures Iterate(setup, k, turn).phase.Idle? && Iterate(setup, k, turn).state.status == WAITING_APPROVAL
  {
    hide Accepted, Inv, Loose, AskApproval, Emit, Find, MissingArtifact, Gated, Entering, TokensOk, Walkable;
    StepFound(setup, step);
    LoopIsLoose(setup, o, k);
    LooseEmit(setup, o, k, StepEntered(step.name));
    EmitState(k, StepEntered(step.name));
    AskView(setup, o, Emit(k, StepEntered(step.name)), step.name, k.phase.payload);
  }

  /** In a class without a declared cycle no run executes a step twice, exactly under the same condition. */
  lemma RepeatsExactly(setup: Setup)
    requires Accepted(setup.workflow) && NoCycle(setup.workflow.steps)
    ensures (forall b, labels | Genuine(setup, b) :: NoDuplicates(ExecutedSteps(Later(setup, b, labels).trail))) <==>
      Walkable(setup)
  {
    hide Closed, Coherent, Distinct, Genuine, Edge, Later, NoCycle, ExecutedSteps;
    if Walkable(setup) {
      forall b, labels | Genuine(setup, b) ensures NoDuplicates(ExecutedSteps(Later(setup, b, labels).trail)) {
        ExecutionsBounded(setup, b, labels);
      }
    } else {
      var step := Find(setup.workflow.steps, "").value;
      var b, labels := NamelessRepeats(setup, step);
      var walk := ExecutedSteps(Later(setup, b, labels).trail);
      assert walk[0] == walk[1];
    }
  }

  // ---- pauses are not transparent at such a step ----

  /** The only step of the class: named "", ungated, needing nothing, ending the run. */
  predicate Lone(setup: Setup, step: Step) {
    && setup.workflow == Workflow([step], Some("")) && step.name == "" && !Gated(step) && step.requiredArtifacts == []
    && step.transition == Some(StrictTransition(END_STEP)) && setup.maxPending > 0
  }

  /** Its executor asks for an interrupt whatever it is given. */
  ghost predicate AlwaysAsks(exec: Executors) {
    forall payload, artifacts, channels :: exec("", payload, artifacts, channels) == ASKS
  }

  /** At the step, or waiting there for an answer to a request, or waiting for good. */
  ghost predicate Spinning(setup: Setup, o: Origin, k: Kernel) {
    || (InLoop(setup, o, k) && k.state.currentStep == Some(""))
    || (Inv(setup, o, k) && k.phase.Idle? && k.state.status == WAITING_INTERRUPT && k.state.currentStep == Some(""))
    || Dead(setup, o, k)
  }

  lemma SpinsOn(setup: Setup, o: Origin, exec: Executors, tick: Tick, k: Kernel, step: Step)
    requires Accepted(setup.workflow) && Lone(setup, step) && AlwaysAsks(exec) && Spinning(setup, o, k)
    ensures Spinning(setup, o, Poke(setup, exec, tick, k)) && !Done(k)
  {
    hide Accepted, Inv, Move, Dead, Lone, AlwaysAsks;
    var d := Drawn(k, tick.drawn);
    if Dead(setup, o, k) {
      DeadIs(setup, o, k);
      DrawnDead(setup, o, k, tick.drawn);
      DeadIs(setup, o, d);
      LateAnswer(setup, o, exec, tick.now, d);
    } else {
      DrawnWorks(setup, o, k, tick.drawn);
      if k.phase.Advancing? {
        SpinPauses(setup, o, exec, tick.now, d, step);
      } else {
        SpinAnswered(setup, o, exec, tick.now, d, step);
      }
    }
  }

  lemma SpinPauses(setup: Setup, o: Origin, exec: Executors, now: int, d: Kernel, step: Step)
    requires Accepted(setup.workflow) && Lone(setup, step) && AlwaysAsks(exec)
    requires InLoop(setup, o, d) && d.state.currentStep == Some("")
    ensures Spinning(setup, o, Move(setup, exec, now, d))
  {
    hide Accepted, Inv, Iterate, MissingArtifact, RequiresApproval, Dead, ApplyUpdate;
    LoneReady(setup, step, d);
    NothingToApply(setup, d.state.channels);
    StepPauses(setup, o, d, step, Turn(None, ASKS, now));
  }

  lemma SpinAnswered(setup: Setup, o: Origin, exec: Executors, now: int, d: Kernel, step: Step)
    requires Accepted(setup.workflow) && Lone(setup, step)
    requires Inv(setup, o, d) && d.phase.Idle? && d.state.status == WAITING_INTERRUPT && d.state.currentStep == Some("")
    ensures Spinning(setup, o, Move(setup, exec, now, d))
  {
    hide Accepted, Inv, Resume, RequestOf, Dead, OnTime;
    InterruptLoose(setup, o, d);
    OpenIs(d.desk, d.state.runId, d.state.epoch, d.issued, d.state.pendingInterruptId.value);
    var q := RequestOf(d.desk, d.state.runId, d.state.pendingInterruptId.value);
    if OnTime(now, d) && q.Some? && q.value.status.Pending? {
      OnTimeIs(now, d);
      AnswerHandsOn(setup, o, d, step, Null, now);
      ResumeWorks(setup, o, d, Answer(d.state.pendingInterruptId.value, Null, None), now);
    } else {
      SettledIsDead(setup, o, now, d);
      LateAnswer(setup, o, exec, now, d);
    }
  }

  lemma DrawnDead(setup: Setup, o: Origin, k: Kernel, drawn: nat)
    requires Dead(setup, o, k)
    ensures Dead(setup, o, Drawn(k, drawn))
  {
    hide Inv;
    DrawnWorks(setup, o, k, drawn);
  }

  lemma LoneReady(setup: Setup, step: Step, k: Kernel)
    requires Lone(setup, step)
    ensures step in setup.workflow.steps && !MissingArtifact(step, k.state.artifacts)
      && !RequiresApproval(step, k.state)
  {
  }

  lemma {:induction false} NeverCompletes(setup: Setup, o: Origin, exec: Executors, ticks: Ticks, k: Kernel, step: Step,
                                          at: nat, n: nat)
    requires Accepted(setup.workflow) && Lone(setup, step) && AlwaysAsks(exec) && Spinning(setup, o, k)
    ensures !Done(Drive(setup, exec, ticks, k, at, n))
    decreases n
  {
    hide Accepted, Spinning, Poke, AlwaysAsks, Lone, Done;
    SpinsOn(setup, o, exec, ticks(at), k, step);
    if n > 0 {
      NeverCompletes(setup, o, exec, ticks, Poke(setup, exec, ticks(at), k), step, at + 1, n - 1);
    }
  }

  /** The proviso of pause transparency is needed: a class whose only step is named "" and always asks for
      an interrupt never completes, however it is answered in time; without the instruction it completes
      in one iteration. */
  lemma NamelessPausesForever(setup: Setup, exec: Executors, ticks: Ticks, others: Ticks, step: Step, runId: string,
                              threadId: string,
                              data: Value, issued: nat)
    requires Accepted(setup.workflow) && Lone(setup, step) && AlwaysAsks(exec)
    ensures !Completes(setup, exec, ticks, Begin(setup, runId, threadId, "", data, issued))
    ensures Completes(Strip(setup), StripExecutors(exec), others,
        Begin(Strip(setup), runId, threadId, "", data, issued))
  {
    hide Inv, Begin, Accepted, Poke, Drive, Done, Spinning, Lone, AlwaysAsks;
    var o := Origin(None, Some(""), [], {});
    var a := Begin(setup, runId, threadId, "", data, issued);
    LoneEntry(setup, step);
    BeginWorks(setup, runId, threadId, "", data, issued);
    BeginSpins(setup, o, a, runId, threadId, data, issued);
    forall n: nat ensures !Done(Drive(setup, exec, ticks, a, 0, n)) {
      NeverCompletes(setup, o, exec, ticks, a, step, 0, n);
    }
    StrippedCompletes(setup, exec, others, step, runId, threadId, data, issued);
  }

  lemma LoneEntry(setup: Setup, step: Step)
    requires Lone(setup, step)
    ensures "" in Names(setup.workflow.steps) && setup.workflow.entry == Some("")
  {
    assert step in setup.workflow.steps;
  }

  lemma BeginSpins(setup: Setup, o: Origin, a: Kernel, runId: string, threadId: string, data: Value, issued: nat)
    requires a == Begin(setup, runId, threadId, "", data, issued) && Inv(setup, o, a) && a.phase == Advancing(data)
    ensures Spinning(setup, o, a) && a.state.currentStep == Some("")
  {
    hide Inv, Read;
  }

  lemma StrippedCompletes(setup: Setup, exec: Executors, ticks: Ticks, step: Step, runId: string, threadId: string,
                          data: Value, issued: nat)
    requires Accepted(setup.workflow) && Lone(setup, step) && AlwaysAsks(exec)
    ensures Completes(Strip(setup), StripExecutors(exec), ticks, Begin(Strip(setup), runId, threadId, "", data, issued))
  {
    hide Accepted, Inv, Begin, Iterate, RequiresApproval, MissingArtifact, ApplyUpdate, RouteNext, Done, Gated;
    var s2, e2 := Strip(setup), StripExecutors(exec);
    var o, b := Origin(None, Some(""), [], {}), Begin(s2, runId, threadId, "", data, issued);
    StripAccepted(setup);
    LoneEntry(setup, step);
    StripFinds(setup.workflow.steps, "");
    BeginWorks(s2, runId, threadId, "", data, issued);
    BeginSpins(s2, o, b, runId, threadId, data, issued);
    var d := Drawn(b, ticks(0).drawn);
    DrawnLoop(s2, o, b, ticks(0).drawn);
    LoneReady(setup, step, d);
    ArmedStripped(setup, step, d.state);
    NothingToApply(s2, d.state.channels);
    var turn := Turn(None, StripOutcome(ASKS), ticks(0).now);
    StepHandsOn(s2, o, d, StripStep(step), turn);
    LoneMode(setup, step);
    LoneRoute(s2, StripStep(step));
    DriveFour(s2, e2, ticks, b, 0);
    assert Poke(s2, e2, ticks(0), b) == Iterate(s2, d, turn);
    assert Done(Drive(s2, e2, ticks, b, 0, 1));
  }

  lemma LoneMode(setup: Setup, step: Step)
    requires Accepted(setup.workflow) && Lone(setup, step)
    ensures step.mode == Some(Strict) && StripStep(step).mode == step.mode
      && StripStep(step).transition == step.transition
  {
    assert step in setup.workflow.steps;
  }

  lemma LoneRoute(setup: Setup, step: Step)
    requires step.transition == Some(StrictTransition(END_STEP)) && step.mode == Some(Strict)
    ensures RouteNext(step, Null, setup.workflow.steps, None, None, setup.str) == Success(END_STEP)
  {
  }
}
