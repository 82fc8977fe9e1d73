/** What holds of every run, from its beginning or from a restored checkpoint, after any turns of the
    environment and any calls to resume it. */
module LifecycleResults {
  import opened Prelude
  import opened Values
  import opened RunStates
  import opened Workflows
  import opened Interrupts
  import opened InterruptManager
  import opened Lifecycle
  import opened LifecycleInvariants

  /** run_workflow or resume_from_checkpoint, with the fresh run id the runtime chose. */
  datatype Birth =
    | Fresh(runId: string, threadId: string, data: Value, issued: nat)
    | Restored(snapshot: RunState, source: string, runId: string, payload: Value, issued: nat)

  function Born(setup: Setup, b: Birth): Kernel
    requires setup.workflow.entry.Some?
  {
    match b
    case Fresh(r, t, data, n) => Begin(setup, r, t, setup.workflow.entry.value, data, n)
    case Restored(s, source, r, payload, n) => Restore(s, source, r, payload, n)
  }

  function OriginOf(setup: Setup, b: Birth): Origin {
    match b
    case Fresh(_, _, _, _) => Origin(None, setup.workflow.entry, [], {})
    case Restored(s, _, _, _, _) => Resumed(s)
  }

  /** Snapshots come from runs of the same class; every checkpoint of such a run qualifies. */
  predicate Genuine(setup: Setup, b: Birth) {
    b.Restored? ==> Placed(setup, b.snapshot)
  }

  function Later(setup: Setup, b: Birth, labels: seq<Label>): Kernel
    requires setup.workflow.entry.Some?
  {
    Run(setup, Born(setup, b), labels)
  }

  lemma Always(setup: Setup, b: Birth, labels: seq<Label>)
    requires Accepted(setup.workflow) && Genuine(setup, b)
    ensures Sound(setup, OriginOf(setup, b), Later(setup, b, labels))
  {
    hide Inv, Begin, Restore, Placed, Closed, Coherent, Distinct;
    match b {
      case Fresh(r, t, data, n) => BeginWorks(setup, r, t, setup.workflow.entry.value, data, n);
      case Restored(s, source, r, payload, n) => RestoreWorks(setup, s, source, r, payload, n);
    }
    RunWorks(setup, OriginOf(setup, b), Born(setup, b), labels);
  }

  /** What also holds of a run that an exception has abandoned. */
  lemma AlwaysStands(setup: Setup, b: Birth, labels: seq<Label>)
    requires Accepted(setup.workflow) && Genuine(setup, b)
    ensures
      var k := Later(setup, b, labels);
      var o := OriginOf(setup, b);
      && Storage(o, k) && CheckpointsPlaced(setup, k.lineage) && Placed(setup, k.state) && k.sum == Replay(k.trail)
      && TokensOk(setup, o, k.state, k.sum, false) && HandoffsOk(setup, k.sum)
      && (Walkable(setup) ==> WalkBase(setup.workflow.steps, o, k.sum.walk))
  {
    hide Run, Born, Genuine, Replay, Linked, OneOpen, AddAll, CheckpointsPlaced, Placed, HandoffsOk, Path, Walkable,
      Closed, Coherent, Distinct;
    Always(setup, b, labels);
  }

  // ---- cache and store ----

  /** At every normal return the cached state is the stored one. */
  lemma CacheAgreesWithStore(setup: Setup, b: Birth, labels: seq<Label>)
    requires Accepted(setup.workflow) && Genuine(setup, b) && Later(setup, b, labels).phase.Idle?
    ensures Later(setup, b, labels).stored == Some(Later(setup, b, labels).state)
  {
    hide Linked, Story, OneOpen, Replay, Run, CheckpointsPlaced, Born, Genuine;
    Always(setup, b, labels);
  }

  // ---- checkpoint lineage ----

  /** Following parent pointers through a table of checkpoints, n steps at most. */
  function Ancestors(table: map<string, RunState>, id: Option<string>, n: nat): seq<RunState>
    decreases n
  {
    if n == 0 || id.None? || id.value !in table then []
    else [table[id.value]] + Ancestors(table, table[id.value].parentCheckpointId, n - 1)
  }

  function IdLength(s: RunState): nat {
    |s.checkpointId.GetOr("")|
  }

  ghost predicate Holds(table: map<string, RunState>, lineage: seq<RunState>) {
    forall i | 0 <= i < |lineage| ::
      lineage[i].checkpointId.Some? && lineage[i].checkpointId.value in table
        && table[lineage[i].checkpointId.value] == lineage[i]
  }

  lemma {:induction false} AncestorsDescend(table: map<string, RunState>, lineage: seq<RunState>,
                                            source: Option<string>, issued: nat, i: nat)
    requires Linked(lineage, source, issued) && Holds(table, lineage) && i < |lineage|
    ensures
      var up := Ancestors(table, lineage[i].checkpointId, i + 1);
      && |up| == i + 1 && (forall j | 0 <= j <= i :: up[j] == lineage[i - j])
      && up[i].parentCheckpointId == source
  {
    assert LinkOk(lineage, source, issued, i);
    if i > 0 {
      AncestorsDescend(table, lineage, source, issued, i - 1);
    }
  }

  /** The stored epoch counts the run's checkpoints. From the latest one, parents lead through the
      epochs e, e - 1, ..., 1 and then to the checkpoint the run was restored from, if any; and each id is
      longer than its parent's. */
  lemma CheckpointLineage(setup: Setup, b: Birth, labels: seq<Label>, table: map<string, RunState>)
    requires Accepted(setup.workflow) && Genuine(setup, b)
    requires Holds(table, Later(setup, b, labels).lineage)
    ensures
      var k := Later(setup, b, labels);
      && k.stored.Some? && k.stored.value.epoch == |k.lineage|
      && var e := k.stored.value.epoch;
         var up := Ancestors(table, k.stored.value.checkpointId, e);
         && |up| == e > 0 && (forall j | 0 <= j < e :: up[j].epoch == e - j)
         && (forall i, j | 0 <= i < j < e :: IdLength(up[j]) < IdLength(up[i]))
         && up[e - 1].parentCheckpointId == OriginOf(setup, b).source
  {
    hide Linked, TokensOk, HandoffsOk, WalkBase, Walkable, Replay, Run, CheckpointsPlaced, Placed, Born, Genuine,
      Ancestors;
    AlwaysStands(setup, b, labels);
    var k := Later(setup, b, labels);
    var n := |k.lineage|;
    var source := OriginOf(setup, b).source;
    LinkedEpochs(k.lineage, source, k.issued);
    AncestorsDescend(table, k.lineage, source, k.issued, n - 1);
    LineageDecreases(k.lineage, source, k.issued);
  }

  lemma LineageDecreases(lineage: seq<RunState>, source: Option<string>, issued: nat)
    requires Linked(lineage, source, issued)
    ensures forall i | 0 <= i < |lineage| :: lineage[i].epoch == i + 1 && lineage[i].checkpointId.Some?
    ensures forall i, j | 0 <= i < j < |lineage| :: IdLength(lineage[i]) < IdLength(lineage[j])
  {
    forall i | 0 <= i < |lineage| ensures lineage[i].epoch == i + 1 && lineage[i].checkpointId.Some? {
      assert LinkOk(lineage, source, issued, i);
    }
  }

  /** Every checkpoint a run writes can be restored. */
  lemma CheckpointsRestorable(setup: Setup, b: Birth, labels: seq<Label>, i: nat, source: string, runId: string,
                              payload: Value, issued: nat)
    requires Accepted(setup.workflow) && Genuine(setup, b)
    requires i < |Later(setup, b, labels).lineage|
    ensures Genuine(setup, Restored(Later(setup, b, labels).lineage[i], source, runId, payload, issued))
  {
    hide Storage, TokensOk, HandoffsOk, WalkBase, Walkable, Replay, Run, Born, Placed;
    AlwaysStands(setup, b, labels);
  }

  // ---- interrupts ----

  /** At every normal return a run that waits for an answer has one request that can be pending: its
      own, with its own epoch. Any other run has no pending request. The request of a waiting run is there
      until the store is swept or the run's requests are cleared. */
  lemma OneLiveInterrupt(setup: Setup, b: Birth, labels: seq<Label>)
    requires Accepted(setup.workflow) && Genuine(setup, b) && Later(setup, b, labels).phase.Idle?
    ensures
      var k := Later(setup, b, labels);
      && (forall i | RequestOf(k.desk, k.state.runId, i).Some?
           && RequestOf(k.desk, k.state.runId, i).value.status.Pending? ::
            && k.state.status == WAITING_INTERRUPT && k.state.pendingInterruptId == Some(i)
            && RequestOf(k.desk, k.state.runId, i).value.epoch == k.state.epoch)
      && (k.state.status == WAITING_INTERRUPT ==>
            && k.state.pendingInterruptId.Some?
            && match RequestOf(k.desk, k.state.runId, k.state.pendingInterruptId.value)
               case Some(q) => q.epoch == k.state.epoch
               case None => exists l | l in labels :: l.Sweep? || l.Clear?)
  {
    hide Linked, Replay, Run, Born, Synced, Placed, RequestOf, WalkOk, TokensOk, AddAll, Closed, Coherent, Distinct;
    Always(setup, b, labels);
    if forall l | l in labels :: !l.Sweep? && !l.Clear? {
      RequestStays(setup, b, labels);
    }
  }

  lemma RequestStays(setup: Setup, b: Birth, labels: seq<Label>)
    requires Accepted(setup.workflow) && Genuine(setup, b) && forall l | l in labels :: !l.Sweep? && !l.Clear?
    ensures Asked(Later(setup, b, labels))
  {
    hide Run, Inv, Begin, Restore, Placed, Closed, Coherent, Distinct, RequestOf;
    match b {
      case Fresh(r, t, data, n) => BeginWorks(setup, r, t, setup.workflow.entry.value, data, n);
      case Restored(s, source, r, payload, n) => RestoreWorks(setup, s, source, r, payload, n);
    }
    RunAsked(setup, OriginOf(setup, b), Born(setup, b), labels);
  }

  /** A request asked for later in a run carries a higher epoch than all the run's earlier ones. */
  lemma RequestEpochsRise(setup: Setup, b: Birth, labels: seq<Label>, turn: Turn, i: string)
    requires Accepted(setup.workflow) && Genuine(setup, b)
    ensures
      var k := Later(setup, b, labels);
      k.phase.Advancing? ==>
        var n := Iterate(setup, k, turn);
        n.phase.Idle? && n.state.status == WAITING_INTERRUPT && RequestOf(k.desk, k.state.runId, i).Some? ==>
          && n.state.pendingInterruptId.Some?
             && RequestOf(n.desk, n.state.runId, n.state.pendingInterruptId.value).Some?
          && RequestOf(k.desk, k.state.runId, i).value.epoch < RequestOf(n.desk, n.state.runId,
               n.state.pendingInterruptId.value).value.epoch
  {
    hide Linked, Replay, Run, Born, Synced, Placed, RequestOf, WalkOk, TokensOk, AddAll, Iterate, Closed, Coherent,
      Distinct;
    var o := OriginOf(setup, b);
    Always(setup, b, labels);
    var k := Later(setup, b, labels);
    if k.phase.Advancing? {
      IterateWorks(setup, o, k, turn);
      if Iterate(setup, k, turn).phase.Idle? {
        EpochRises(setup, o, k, turn);
      }
    }
  }

  /** An iteration that comes back saves at least once. */
  lemma EpochRises(setup: Setup, o: Origin, k: Kernel, turn: Turn)
    requires Accepted(setup.workflow) && InLoop(setup, o, k) && !Iterate(setup, k, turn).phase.Crashed?
    ensures k.state.epoch < Iterate(setup, k, turn).state.epoch
  {
    IterateGrows(setup, k, turn);
    IterateWorks(setup, o, k, turn);
    EpochIsCount(setup, o, k);
    EpochIsCount(setup, o, Iterate(setup, k, turn));
  }

  lemma SaveGrows(k: Kernel, s: RunState)
    ensures Save(k, s).Success? ==> |Save(k, s).value.lineage| == |k.lineage| + 1
  {
    hide Read, Consistent;
  }

  lemma EndGrows(k: Kernel, error: string, step: string, payload: Value)
    ensures Complete(k).Success? ==> |Complete(k).value.lineage| == |k.lineage| + 1
    ensures FailRun(k, error).Success? ==> |FailRun(k, error).value.lineage| == |k.lineage| + 1
    ensures AskApproval(k, step, payload).Success? ==> |AskApproval(k, step, payload).value.lineage| == |k.lineage| + 1
  {
    hide Save, Read;
    SaveGrows(k, k.state.(currentStep := None, status := COMPLETED));
    SaveGrows(k, k.state.(status := FAILED, error := Some(error)));
    SaveGrows(k, k.state.(pendingApproval := Some(step), status := WAITING_APPROVAL, pendingInput := Some(payload)));
  }

  lemma RouteGrows(setup: Setup, k: Kernel, step: Step, output: Value, handoff: Option<string>,
                   command: Option<Command>)
    ensures
      var r := Route(setup, k, step, output, handoff, command);
      r.Success? ==> |r.value.lineage| >= |k.lineage|
  {
    hide Save, Read, RouteNext, Complete, FailRun;
    match RouteNext(step, output, setup.workflow.steps, handoff, GotoOf(command), setup.str)
    case Success(next) =>
      var k1 := if handoff.Some? then Emit(k, HandoffAccepted(handoff.value, next)) else k;
      var k2 := Emit(k1, TransitionChosen(step.name, next));
      EndGrows(k2, "", "", Null);
      SaveGrows(k2, k2.state.(currentStep := Some(next)));
    case Failure(_) =>
      EndGrows(if handoff.Some? then Emit(k, HandoffRejected(handoff.value)) else k, "illegal transition", "", Null);
  }

  lemma PauseGrows(setup: Setup, k: Kernel, step: Step, output: Value, handoff: Option<string>, command: Command,
                   now: int)
    requires command.interrupt.Some?
    ensures
      var r := Pause(setup, k, step, output, handoff, command, now);
      r.Success? ==> |r.value.lineage| >= |k.lineage|
  {
    hide Save, Read, Created, Saved;
    var c := Created(k.desk, k.state.runId, step.name, command.interrupt.value.ttlSeconds.GetOr(setup.defaultTtl),
                     Some(k.state.epoch), Some(setup.maxPending), now, Uuid(k.issued));
    if c.1.Success? {
      SaveGrows(k.(desk := c.0, issued := k.issued + 1),
                k.state.(pendingInterruptId := Some(c.1.value.interruptId), status := WAITING_INTERRUPT,
                         pendingResume := Some(Continuation(step.name, output, handoff, command))));
    }
  }

  lemma FinishGrows(setup: Setup, k: Kernel, step: Step, out: Outcome, now: int)
    requires out.Finished?
    ensures Finish(setup, k, step, out, now).Success? ==> |Finish(setup, k, step, out, now).value.lineage| > |k.lineage|
  {
    hide Save, Pause, Route, ApplyUpdate;
    var output := OutputOf(out.output, out.command);
    var update := if out.command.Some? then out.command.value.stateUpdate else map[];
    var channels := ApplyUpdate(setup, k.state.channels, update);
    if channels.Some? {
      SaveGrows(k, Recorded(k.state, step, output, channels.value));
    }
    var r := Record(setup, k, step, output, out.command);
    if r.Success? {
      if out.command.Some? && out.command.value.interrupt.Some? {
        PauseGrows(setup, r.value, step, output, out.handoff, out.command.value, now);
      } else {
        RouteGrows(setup, r.value, step, output, out.handoff, out.command);
      }
    }
  }

  lemma ExecuteGrows(setup: Setup, k: Kernel, step: Step, payload: Value, turn: Turn)
    ensures Execute(setup, k, step, payload, turn).Success? ==>
      |Execute(setup, k, step, payload, turn).value.lineage| > |k.lineage|
  {
    hide Save, Read, Finish, Complete, FailRun, AskApproval, Admitted;
    var k1 := Emit(k, ExecutionStarted(step.name));
    match Admitted(step, turn.outcome)
    case NeedsApproval => EndGrows(k1, "", step.name, payload);
    case Fails(error) => EndGrows(k1, error, "", payload);
    case Finished(output, handoff, command) =>
      FinishGrows(setup, Emit(k1, ExecutionCompleted(step.name)), step, Finished(output, handoff, command), turn.now);
  }

  lemma IterateGrows(setup: Setup, k: Kernel, turn: Turn)
    requires k.phase.Advancing? && !Iterate(setup, k, turn).phase.Crashed?
    ensures |Iterate(setup, k, turn).lineage| > |k.lineage|
  {
    hide Save, Read, Execute, Complete, FailRun, AskApproval, MissingArtifact, RequiresApproval, Find;
    var payload := k.phase.payload;
    EndGrows(k, "", "", payload);
    if k.state.currentStep.Some? && Find(setup.workflow.steps, k.state.currentStep.value).Some? {
      var step := Find(setup.workflow.steps, k.state.currentStep.value).value;
      var k1 := Emit(k, StepEntered(step.name));
      EndGrows(k1, "", step.name, payload);
      EndGrows(Emit(k1, PolicyDenied(step.name)), turn.denied.GetOr(""), "", payload);
      ExecuteGrows(setup, k1, step, payload, turn);
    }
  }

  lemma EpochIsCount(setup: Setup, o: Origin, k: Kernel)
    requires Inv(setup, o, k)
    ensures k.state.epoch == |k.lineage|
  {
    hide Linked, Story, OneOpen, Replay, CheckpointsPlaced;
    LinkedEpochs(k.lineage, o.source, k.issued);
  }

  /** An answer that sets the run going has resolved the run's own request, under the run's epoch,
      although ids are never compared. */
  lemma AnswerResolvesOwn(setup: Setup, b: Birth, labels: seq<Label>, payload: ResumePayload, now: int)
    requires Accepted(setup.workflow) && Genuine(setup, b)
    ensures
      var k := Later(setup, b, labels);
      k.phase.Idle? && k.state.status == WAITING_INTERRUPT
        && Resume(setup, k, payload, now).state.status != WAITING_INTERRUPT ==>
        && payload.Answer? && k.state.pendingInterruptId == Some(payload.interruptId)
        && (payload.epoch.Some? ==> payload.epoch.value == k.state.epoch)
  {
    hide Run, Born, Closed, Coherent, Distinct, Genuine, Inv, RequestOf, Saved, FollowContinuation, Bumped, Save,
      OneOpen;
    Always(setup, b, labels);
    var k := Later(setup, b, labels);
    if k.phase.Idle? && k.state.status == WAITING_INTERRUPT && payload.Answer? {
      InterruptLoose(setup, OriginOf(setup, b), k);
      DeskSettles(k.desk, k.state.runId, k.state.epoch, k.issued, k.state.pendingInterruptId.value,
                  payload.interruptId, payload.epoch.GetOr(k.state.epoch), now);
    }
  }

  /** An answer under any epoch but the run's, in particular an earlier one, or for another request,
      changes neither the run nor its checkpoints. */
  lemma StaleAnswerRejected(setup: Setup, b: Birth, labels: seq<Label>, payload: ResumePayload, now: int)
    requires Accepted(setup.workflow) && Genuine(setup, b)
    requires Later(setup, b, labels).phase.Idle? && Later(setup, b, labels).state.status == WAITING_INTERRUPT
    requires payload.Answer?
    requires || (payload.epoch.Some? && payload.epoch.value != Later(setup, b, labels).state.epoch)
             || Later(setup, b, labels).state.pendingInterruptId != Some(payload.interruptId)
    ensures
      var k := Later(setup, b, labels);
      var n := Resume(setup, k, payload, now);
      n.state == k.state && n.stored == k.stored && n.lineage == k.lineage && n.phase == k.phase
  {
    hide Run, Born, Closed, Coherent, Distinct, Genuine, Inv, RequestOf, Saved, FollowContinuation, Bumped, Save,
      OneOpen, Settled, Read;
    Always(setup, b, labels);
    var k := Later(setup, b, labels);
    InterruptLoose(setup, OriginOf(setup, b), k);
    DeskSettles(k.desk, k.state.runId, k.state.epoch, k.issued, k.state.pendingInterruptId.value,
                payload.interruptId, payload.epoch.GetOr(k.state.epoch), now);
  }

  // ---- abandoned runs ----

  lemma {:induction false} AbandonedStays(setup: Setup, k: Kernel, labels: seq<Label>)
    requires k.phase.Crashed? && k.stored.Some?
    ensures
      var n := Run(setup, k, labels);
      && n.phase.Crashed? && (n.state == k.state || n.state == k.stored.value)
      && n.stored == k.stored && n.lineage == k.lineage && n.trail == k.trail
    decreases |labels|
  {
    hide Tended, Iterate, Resume;
    if labels != [] {
      AbandonedStays(setup, Next(setup, k, labels[0]), labels[1..]);
    }
  }

  /** A run that an exception or the end of its runtime has abandoned stays RUNNING, in the cache and in
      the store: no resume, no turn and no later runtime sets it going or reports anything of it. What it
      has saved can only be restored as another run. */
  lemma AbandonedForGood(setup: Setup, b: Birth, labels: seq<Label>, more: seq<Label>)
    requires Accepted(setup.workflow) && Genuine(setup, b) && Later(setup, b, labels).phase.Crashed?
    ensures
      var k, n := Later(setup, b, labels), Later(setup, b, labels + more);
      && n.phase.Crashed? && n.state.status == RUNNING && n.stored == k.stored && n.lineage == k.lineage
         && n.trail == k.trail
      && n.stored.Some? && n.stored.value.status == RUNNING
      && Genuine(setup, Restored(n.stored.value, "", "", Null, 0))
  {
    hide Run, Born, Closed, Coherent, Distinct, Linked, OneOpen, TokensOk, HandoffsOk, WalkBase, Walkable, Replay,
      Placed;
    Always(setup, b, labels);
    RunJoins(setup, Born(setup, b), labels, more);
    AbandonedStays(setup, Later(setup, b, labels), more);
    var k := Later(setup, b, labels);
    assert Placed(setup, k.lineage[|k.lineage| - 1]);
  }

  /** Labels may be taken in two goes. */
  lemma {:induction false} RunJoins(setup: Setup, k: Kernel, labels: seq<Label>, more: seq<Label>)
    ensures Run(setup, k, labels + more) == Run(setup, Run(setup, k, labels), more)
    decreases |labels|
  {
    hide Next;
    if labels == [] {
      assert labels + more == more;
    } else {
      assert (labels + more)[1..] == labels[1..] + more;
      RunJoins(setup, Next(setup, k, labels[0]), labels[1..], more);
    }
  }

  // ---- the audit trail ----

  ghost predicate HasTerminal(trail: seq<Event>) {
    exists e | e in trail :: TerminalEvent(e)
  }

  /** What one more event changes of the end and of the walk. */
  lemma ReadEffect(sum: Summary, e: Event)
    ensures var n := Read(sum, e);
      && n.ended == (sum.ended || TerminalEvent(e)) && n.late == (sum.late || sum.ended)
      && n.walk == sum.walk + (if e.ExecutionCompleted? then [e.step] else [])
  {
  }

  /** And of the counts. */
  lemma ReadAttempts(sum: Summary, e: Event)
    ensures Read(sum, e).attempts == if e.ExecutionStarted? then sum.attempts + multiset{e.step} else sum.attempts
  {
  }

  lemma ReadGrants(sum: Summary, e: Event)
    ensures Read(sum, e).grants == if e.ApprovalGranted? then sum.grants + multiset{e.current} else sum.grants
  {
  }

  /** A reader sees an end exactly when there is a terminal event, and a late event exactly when there
      is one before the last. */
  lemma {:induction false} LateMeans(trail: seq<Event>)
    ensures Replay(trail).ended <==> HasTerminal(trail)
    ensures Replay(trail).late <==> trail != [] && HasTerminal(trail[..|trail| - 1])
  {
    hide Read, TerminalEvent;
    if trail != [] {
      var n := |trail| - 1;
      LateMeans(trail[..n]);
      ReadEffect(Replay(trail[..n]), trail[n]);
      assert trail == trail[..n] + [trail[n]];
    }
  }

  /** Replaying the events gives the status and the step of the run at every normal return. A terminal
      event occurs only as the last one, and does so exactly when the run is COMPLETED or FAILED. */
  lemma AuditReplays(setup: Setup, b: Birth, labels: seq<Label>)
    requires Accepted(setup.workflow) && Genuine(setup, b) && Later(setup, b, labels).phase.Idle?
    ensures
      var k := Later(setup, b, labels);
      && Replay(k.trail).status == k.state.status && Replay(k.trail).step == k.state.currentStep
      && (forall i | 0 <= i < |k.trail| - 1 :: !TerminalEvent(k.trail[i]))
      && (Terminal(k.state.status) <==> k.trail != [] && TerminalEvent(k.trail[|k.trail| - 1]))
  {
    hide Run, Born, Genuine, Replay, Linked, OneOpen, TokensOk, WalkOk, AddAll, CheckpointsPlaced, Placed, Synced;
    Always(setup, b, labels);
    var trail := Later(setup, b, labels).trail;
    LateMeans(trail);
    assert trail != [] ==> trail == trail[..|trail| - 1] + [trail[|trail| - 1]];
    assert forall i | 0 <= i < |trail| - 1 :: trail[i] in trail[..|trail| - 1];
  }

  // ---- approvals ----

  lemma {:induction false} ReplayCounts(trail: seq<Event>, step: string)
    ensures Replay(trail).attempts[step] == multiset(trail)[ExecutionStarted(step)]
    ensures Replay(trail).grants[Some(step)] == multiset(trail)[ApprovalGranted(Some(step))]
  {
    hide Read;
    if trail != [] {
      var n := |trail| - 1;
      ReplayCounts(trail[..n], step);
      ReadAttempts(Replay(trail[..n]), trail[n]);
      ReadGrants(Replay(trail[..n]), trail[n]);
      assert trail == trail[..n] + [trail[n]];
    }
  }

  /** Executions begun of a gated step never outnumber the approvals granted for it, but for the one
      token a restored checkpoint may carry; and no token is held for a step other than the current
      one. A successful execution spends its token, so a loop back asks again. */
  lemma ApprovalsAccounted(setup: Setup, b: Birth, labels: seq<Label>, step: Step)
    requires Accepted(setup.workflow) && Genuine(setup, b) && step in setup.workflow.steps && Gated(step)
    ensures
      var k := Later(setup, b, labels);
      && multiset(k.trail)[ExecutionStarted(step.name)] <= multiset(k.trail)[ApprovalGranted(Some(step.name))]
           + (if b.Restored? && step.name in b.snapshot.approvedSteps then 1 else 0)
      && k.state.approvedSteps <= Here(k.state.currentStep)
  {
    hide Run, Born, Genuine, Replay, Storage, WalkBase, HandoffsOk, CheckpointsPlaced, Gated, Walkable;
    AlwaysStands(setup, b, labels);
    ReplayCounts(Later(setup, b, labels).trail, step.name);
  }

  // ---- the walk ----

  function ExecutedSteps(trail: seq<Event>): seq<string> {
    if trail == [] then []
    else
      var n := |trail| - 1;
      ExecutedSteps(trail[..n]) + (if trail[n].ExecutionCompleted? then [trail[n].step] else [])
  }

  lemma {:induction false} ReplayWalks(trail: seq<Event>)
    ensures Replay(trail).walk == ExecutedSteps(trail)
  {
    hide Read;
    if trail != [] {
      ReplayWalks(trail[..|trail| - 1]);
      ReadEffect(Replay(trail[..|trail| - 1]), trail[|trail| - 1]);
    }
  }

  /** Every run is a walk along declared transitions from its first step, through gotos, handoffs and
      answered interrupts alike, an abandoned run included; otherwise its completed steps are those
      walked, each listed once, and it stands where the walk leads. */
  lemma EveryRunIsAWalk(setup: Setup, b: Birth, labels: seq<Label>)
    requires Accepted(setup.workflow) && Genuine(setup, b)
    ensures
      var k := Later(setup, b, labels);
      var o := OriginOf(setup, b);
      var walk := ExecutedSteps(k.trail);
      && (k.state.currentStep.Some? ==> k.state.currentStep.value in Names(setup.workflow.steps))
      && (Walkable(setup) ==> WalkBase(setup.workflow.steps, o, walk))
      && (!k.phase.Crashed? ==>
            && k.state.completedSteps == AddAll(o.done, walk)
            && (Walkable(setup) ==> WalkOk(setup.workflow.steps, o, k.state.status, walk, k.state.currentStep)))
  {
    hide Run, Born, Genuine, Replay, Linked, OneOpen, WalkOk, WalkBase, AddAll, CheckpointsPlaced, Synced, TokensOk,
      HandoffsOk, Walkable;
    Always(setup, b, labels);
    AlwaysStands(setup, b, labels);
    ReplayWalks(Later(setup, b, labels).trail);
  }

  // ---- handoffs ----

  lemma HandoverNoted(sum: Summary, e: Event)
    ensures Read(sum, e).handoffs ==
      sum.handoffs + (if e.HandoffAccepted? then [Handover(LastOf(sum.walk), e.agent, e.next)] else [])
  {
  }

  lemma {:induction false} HandoversRead(trail: seq<Event>, i: nat)
    requires i < |trail| && trail[i].HandoffAccepted?
    ensures Handover(LastOf(Replay(trail[..i]).walk), trail[i].agent, trail[i].next) in Replay(trail).handoffs
  {
    hide Read, LastOf;
    var n := |trail| - 1;
    HandoverNoted(Replay(trail[..n]), trail[n]);
    if i < n {
      HandoversRead(trail[..n], i);
      assert trail[..n][..i] == trail[..i];
    }
  }

  /** Every accepted handoff of a run, pauses between the execution and the transition included, was
      proposed by the agent executed last, is on its allowlist, and goes to a step executed by the agent
      handed to. */
  lemma HandoffsLand(setup: Setup, b: Birth, labels: seq<Label>, i: nat)
    requires Accepted(setup.workflow) && Genuine(setup, b)
    requires i < |Later(setup, b, labels).trail| && Later(setup, b, labels).trail[i].HandoffAccepted?
    ensures
      var trail := Later(setup, b, labels).trail;
      var walk := ExecutedSteps(trail[..i]);
      && walk != []
      && (exists from, next | from in setup.workflow.steps && next in setup.workflow.steps ::
            && from.name == walk[|walk| - 1] && from.executor.Agent? && trail[i].agent in from.executor.handoffs
            && next.name == trail[i].next && next.executor.Agent? && next.executor.name == trail[i].agent)
  {
    hide Run, Born, Genuine, Replay, Storage, WalkBase, Walkable, CheckpointsPlaced, TokensOk, Placed, Find, Distinct,
      Closed, Coherent;
    AlwaysStands(setup, b, labels);
    var k := Later(setup, b, labels);
    HandoversRead(k.trail, i);
    ReplayWalks(k.trail[..i]);
    var h := Handover(LastOf(Replay(k.trail[..i]).walk), k.trail[i].agent, k.trail[i].next);
    var j :| 0 <= j < |k.sum.handoffs| && k.sum.handoffs[j] == h;
  }
}
