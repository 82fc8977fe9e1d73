/** Workflows whose declared transitions have no cycle: every run ends, executes each step at most once,
    and lists as completed exactly the steps it walked. */
module Acyclic {
  import opened Prelude
  import opened Values
  import opened RunStates
  import opened Sequences
  import opened Workflows
  import opened Lifecycle
  import opened LifecycleInvariants
  import opened LifecycleResults

  /** No declared path comes back to where it began. */
  ghost predicate NoCycle(steps: seq<Step>) {
    forall p: seq<string> | Path(steps, p) && |p| > 1 :: p[0] != p[|p| - 1]
  }

  // ---- walks without repetition ----

  lemma SubPath(steps: seq<Step>, walk: seq<string>, i: nat, j: nat)
    requires Path(steps, walk) && i < j < |walk|
    ensures Path(steps, walk[i..j + 1])
  {
    hide Edge, Names;
    var p := walk[i..j + 1];
    assert forall m | 0 <= m < |p| :: p[m] == walk[i + m];
  }

  lemma NeverRepeats(steps: seq<Step>, walk: seq<string>)
    requires NoCycle(steps) && Path(steps, walk)
    ensures NoDuplicates(walk)
  {
    hide Path;
    forall i, j | 0 <= i < j < |walk| ensures walk[i] != walk[j] {
      SubPath(steps, walk, i, j);
      var p := walk[i..j + 1];
      assert p[0] == walk[i] && p[|p| - 1] == walk[j];
    }
  }

  lemma {:induction false} Pigeonhole(walk: seq<string>, names: set<string>)
    requires NoDuplicates(walk) && forall n | n in walk :: n in names
    ensures |walk| <= |names|
  {
    if walk != [] {
      var last := walk[|walk| - 1];
      var rest := walk[..|walk| - 1];
      assert forall n | n in rest :: n != last;
      Pigeonhole(rest, names - {last});
    }
  }

  lemma {:induction false} NamesCount(steps: seq<Step>)
    ensures |Names(steps)| <= |steps|
  {
    if steps != [] {
      var rest := steps[..|steps| - 1];
      NamesCount(rest);
      assert steps == rest + [steps[|steps| - 1]];
      assert Names(steps) == Names(rest) + {steps[|steps| - 1].name};
    }
  }

  lemma PathBound(steps: seq<Step>, walk: seq<string>)
    requires NoCycle(steps) && Path(steps, walk)
    ensures |walk| <= |steps|
  {
    NeverRepeats(steps, walk);
    Pigeonhole(walk, Names(steps));
    NamesCount(steps);
  }

  lemma {:induction false} AddAllDistinct(walk: seq<string>)
    requires NoDuplicates(walk)
    ensures AddAll([], walk) == walk
  {
    if walk != [] {
      var n := |walk| - 1;
      AddAllDistinct(walk[..n]);
      assert walk == walk[..n] + [walk[n]];
    }
  }

  /** A run of an acyclic class, its pauses included, executes each step at most once, so at most
      |steps| of them; a run that began at the entry step and was not abandoned lists exactly its walk as
      completed. */
  lemma ExecutionsBounded(setup: Setup, b: Birth, labels: seq<Label>)
    requires Accepted(setup.workflow) && Genuine(setup, b) && NoCycle(setup.workflow.steps) && Walkable(setup)
    ensures
      var k := Later(setup, b, labels);
      var walk := ExecutedSteps(k.trail);
      && NoDuplicates(walk) && |walk| <= |setup.workflow.steps|
      && (b.Fresh? && !k.phase.Crashed? ==> k.state.completedSteps == walk)
  {
    hide NoCycle, Path, Run, Born, Genuine, Closed, Coherent, Distinct, Walkable, ExecutedSteps, WalkOk;
    EveryRunIsAWalk(setup, b, labels);
    var walk := ExecutedSteps(Later(setup, b, labels).trail);
    NeverRepeats(setup.workflow.steps, walk);
    PathBound(setup.workflow.steps, walk);
    AddAllDistinct(walk);
  }

  // ---- the loop ends ----

  lemma SaveKeepsWalk(k: Kernel, s: RunState)
    ensures Save(k, s).Success? ==> Save(k, s).value.sum.walk == k.sum.walk && Save(k, s).value.phase == k.phase
  {
  }

  lemma EndsIdle(k: Kernel, error: string, step: string, payload: Value)
    ensures Complete(k).Success? ==> Complete(k).value.phase == Idle
    ensures FailRun(k, error).Success? ==> FailRun(k, error).value.phase == Idle
    ensures AskApproval(k, step, payload).Success? ==> AskApproval(k, step, payload).value.phase == Idle
  {
    hide Save, Read;
  }

  lemma EmitWalk(k: Kernel, e: Event)
    requires !e.ExecutionCompleted?
    ensures Emit(k, e).sum.walk == k.sum.walk && Emit(k, e).phase == k.phase
  {
  }

  lemma RouteAdvances(setup: Setup, k: Kernel, step: Step, output: Value, handoff: Option<string>,
                      command: Option<Command>)
    ensures
      var r := Route(setup, k, step, output, handoff, command);
      r.Success? && r.value.phase.Advancing? ==> r.value.sum.walk == k.sum.walk
  {
    hide Save, RouteNext, Complete, FailRun, Read, Emit;
    match RouteNext(step, output, setup.workflow.steps, handoff, GotoOf(command), setup.str)
    case Success(next) =>
      var k1 := if handoff.Some? then Emit(k, HandoffAccepted(handoff.value, next)) else k;
      EmitWalk(k, HandoffAccepted(handoff.GetOr(""), next));
      EmitWalk(k1, TransitionChosen(step.name, next));
      var k2 := Emit(k1, TransitionChosen(step.name, next));
      EndsIdle(k2, "", "", Null);
      SaveKeepsWalk(k2, k2.state.(currentStep := Some(next)));
    case Failure(_) =>
      EndsIdle(if handoff.Some? then Emit(k, HandoffRejected(handoff.value)) else k, "illegal transition", "", Null);
  }

  lemma PauseIdles(setup: Setup, k: Kernel, step: Step, output: Value, handoff: Option<string>, command: Command,
                   now: int)
    requires command.interrupt.Some?
    ensures
      var r := Pause(setup, k, step, output, handoff, command, now);
      r.Success? ==> r.value.phase == Idle
  {
    hide Save, Read, Uuid;
  }

  lemma FinishAdvances(setup: Setup, k: Kernel, step: Step, out: Outcome, now: int)
    requires out.Finished?
    ensures
      var r := Finish(setup, k, step, out, now);
      r.Success? && r.value.phase.Advancing? ==> r.value.sum.walk == k.sum.walk
  {
    hide Save, Pause, Route, ApplyUpdate;
    var output := OutputOf(out.output, out.command);
    var update := if out.command.Some? then out.command.value.stateUpdate else map[];
    var channels := ApplyUpdate(setup, k.state.channels, update);
    if channels.Some? {
      SaveKeepsWalk(k, Recorded(k.state, step, output, channels.value));
    }
    var r := Record(setup, k, step, output, out.command);
    if r.Success? {
      if out.command.Some? && out.command.value.interrupt.Some? {
        PauseIdles(setup, r.value, step, output, out.handoff, out.command.value, now);
      } else {
        RouteAdvances(setup, r.value, step, output, out.handoff, out.command);
      }
    }
  }

  /** An iteration after which the loop goes on has executed one more step. */
  lemma GoingOnWalks(setup: Setup, k: Kernel, turn: Turn)
    requires k.phase.Advancing? && Iterate(setup, k, turn).phase.Advancing?
    ensures |Iterate(setup, k, turn).sum.walk| == |k.sum.walk| + 1
  {
    hide Save, Finish, Complete, FailRun, AskApproval, MissingArtifact, RequiresApproval, Find, Admitted;
    var payload := k.phase.payload;
    EndsIdle(k, "", "", payload);
    if k.state.currentStep.Some? && Find(setup.workflow.steps, k.state.currentStep.value).Some? {
      var step := Find(setup.workflow.steps, k.state.currentStep.value).value;
      var k1 := Emit(k, StepEntered(step.name));
      EndsIdle(k1, "", step.name, payload);
      EndsIdle(Emit(k1, PolicyDenied(step.name)), turn.denied.GetOr(""), "", payload);
      var k2 := Emit(k1, ExecutionStarted(step.name));
      EndsIdle(k2, if turn.outcome.Fails? then turn.outcome.error else "disallowed handoff", step.name, payload);
      AdmittedOutcome(step, turn.outcome);
      var out := Admitted(step, turn.outcome);
      if out.Finished? {
        FinishAdvances(setup, Emit(k2, ExecutionCompleted(step.name)), step, out, turn.now);
      }
    }
  }

  lemma AdmittedOutcome(step: Step, outcome: Outcome)
    ensures Admitted(step, outcome).Fails? ==>
      Admitted(step, outcome).error == if outcome.Fails? then outcome.error else "disallowed handoff"
  {
  }

  /** The loop over an environment that decides each turn. */
  function Turns(setup: Setup, k: Kernel, env: nat -> Turn, from: nat, n: nat): Kernel
    decreases n
  {
    if n == 0 || !k.phase.Advancing? then k else Turns(setup, Iterate(setup, k, env(from)), env, from + 1, n - 1)
  }

  lemma {:induction false} LoopEnds(setup: Setup, o: Origin, k: Kernel, env: nat -> Turn, from: nat, n: nat)
    requires Accepted(setup.workflow) && NoCycle(setup.workflow.steps) && Walkable(setup) && Sound(setup, o, k)
    requires n > |setup.workflow.steps| || (k.phase.Advancing? && n + |k.sum.walk| > |setup.workflow.steps|)
    ensures !Turns(setup, k, env, from, n).phase.Advancing?
    decreases n
  {
    hide Iterate, Inv, NoCycle, Accepted, Walkable;
    if k.phase.Advancing? {
      WalkBounded(setup, o, k);
      IterateWorks(setup, o, k, env(from));
      var next := Iterate(setup, k, env(from));
      if next.phase.Advancing? {
        GoingOnWalks(setup, k, env(from));
        WalkBounded(setup, o, next);
        LoopEnds(setup, o, next, env, from + 1, n - 1);
      }
    }
  }

  lemma WalkBounded(setup: Setup, o: Origin, k: Kernel)
    requires Accepted(setup.workflow) && NoCycle(setup.workflow.steps) && Walkable(setup) && Inv(setup, o, k)
    ensures |k.sum.walk| <= |setup.workflow.steps|
  {
    hide Linked, OneOpen, Replay, AddAll, TokensOk, NoCycle, Path, CheckpointsPlaced, Storage, Names;
    PathBound(setup.workflow.steps, k.sum.walk);
  }

  /** Whatever the executors and policies do, and wherever the run stands, the loop of an acyclic class
      is left within |steps| + 1 iterations. */
  lemma AdvanceTerminates(setup: Setup, b: Birth, labels: seq<Label>, env: nat -> Turn)
    requires Accepted(setup.workflow) && Genuine(setup, b) && NoCycle(setup.workflow.steps) && Walkable(setup)
    ensures !Turns(setup, Later(setup, b, labels), env, 0, |setup.workflow.steps| + 1).phase.Advancing?
  {
    hide NoCycle, Run, Born, Genuine, Closed, Coherent, Distinct, Walkable, Turns, Sound;
    Always(setup, b, labels);
    LoopEnds(setup, OriginOf(setup, b), Later(setup, b, labels), env, 0, |setup.workflow.steps| + 1);
  }
}
