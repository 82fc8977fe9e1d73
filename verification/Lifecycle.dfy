/** The life of one run (governai/runtime/local.py, lines 213-698, 1129-1206, 1385-1405): every
    operation as a function on the run's part of the runtime. What executors, policies and the clock
    do is a parameter of each step. */
module Lifecycle {
  import opened Prelude
  import opened Values
  import opened RunStates
  import opened RunStore
  import opened Sequences
  import opened Workflows
  import opened Interrupts
  import opened InterruptManager

  // ---- configuration and environment ----

  /** A workflow class together with the runtime's settings. A reducer that raises yields None; `order` is
      how an update lists its channels. */
  datatype Setup = Setup(
    workflow: Workflow,
    maxPending: nat,
    defaultTtl: int,
    channelDefaults: map<string, Value>,
    reduce: (string, Value, Value) -> Option<Value>,
    order: map<string, Value> -> seq<string>,
    str: Value -> string)

  /** How a call into a tool or an agent ends. */
  datatype Outcome =
    | Finished(output: Value, handoff: Option<string>, command: Option<Command>)
    | NeedsApproval
    | Fails(error: string)

  /** What the environment contributes to one loop iteration: a policy's denial if there is one, the
      executor's outcome, the time. */
  datatype Turn = Turn(denied: Option<string>, outcome: Outcome, now: int)

  /** A normalised resume payload. */
  datatype ResumePayload =
    | Approve
    | Reject(reason: string)
    | Answer(interruptId: string, response: Value, epoch: Option<int>)

  // ---- audit events ----

  datatype Event =
    | CheckpointWritten(id: string, parent: Option<string>)
    | RunStarted(entry: Option<string>)
    | CheckpointRestored(source: string)
    | StepEntered(step: string)
    | PolicyDenied(step: string)
    | ExecutionStarted(step: string)
    | ExecutionCompleted(step: string)
    | ApprovalRequested(step: string)
    | ApprovalGranted(current: Option<string>)
    | ApprovalRejected(current: Option<string>)
    | InterruptRequested(step: string, id: string, epoch: int)
    | InterruptResolved(id: string)
    | InterruptExpired(id: string)
    | InterruptRejectedEpoch(id: string)
    | HandoffAccepted(agent: string, next: string)
    | HandoffRejected(agent: string)
    | TransitionChosen(step: string, next: string)
    | RunCompleted
    | RunFailed

  predicate TerminalEvent(e: Event) {
    e.RunCompleted? || e.RunFailed?
  }

  /** A handoff accepted: the step executed last before it, the agent handed to, the step routed to. */
  datatype Handover = Handover(from: Option<string>, agent: string, next: string)

  /** What a reader of one run's audit trail can tell. */
  datatype Summary = Summary(
    status: Status,
    step: Option<string>,
    ended: bool,
    late: bool,                     // an event came after a terminal one
    walk: seq<string>,              // steps whose execution completed
    attempts: multiset<string>,     // executions begun
    grants: multiset<Option<string>>,
    handoffs: seq<Handover>)

  const UNREAD := Summary(PENDING, None, false, false, [], multiset{}, multiset{}, [])

  function LastOf(walk: seq<string>): Option<string> {
    if walk == [] then None else Some(walk[|walk| - 1])
  }

  function Read(sum: Summary, e: Event): Summary {
    var s := sum.(late := sum.late || sum.ended);
    match e
    case RunStarted(entry) => s.(status := RUNNING, step := entry)
    case ExecutionStarted(step) => s.(attempts := s.attempts + multiset{step})
    case ExecutionCompleted(step) => s.(walk := s.walk + [step])
    case ApprovalRequested(_) => s.(status := WAITING_APPROVAL)
    case ApprovalGranted(current) => s.(status := RUNNING, grants := s.grants + multiset{current})
    case InterruptRequested(_, _, _) => s.(status := WAITING_INTERRUPT)
    case InterruptResolved(_) => s.(status := RUNNING)
    case HandoffAccepted(agent, next) => s.(handoffs := s.handoffs + [Handover(LastOf(s.walk), agent, next)])
    case TransitionChosen(_, next) => s.(step := if next == END_STEP then None else Some(next))
    case RunCompleted => s.(status := COMPLETED, ended := true)
    case RunFailed => s.(status := FAILED, ended := true)
    case _ => s
  }

  /** Reading a whole trail, from the first event on. */
  function Replay(trail: seq<Event>): Summary {
    if trail == [] then UNREAD else Read(Replay(trail[..|trail| - 1]), trail[|trail| - 1])
  }

  // ---- the run ----

  /** Inside the loop with a payload; returned or raised to the caller with the run at rest; or
      abandoned, by an exception or by the end of its runtime, which leaves it RUNNING. */
  datatype Phase = Advancing(payload: Value) | Idle | Crashed

  /** The cached state, the stored snapshot, the checkpoints in the order they were written, the
      interrupt store, the audit trail with what it says so far, and the uuids issued. */
  datatype Kernel = Kernel(
    state: RunState,
    stored: Option<RunState>,
    lineage: seq<RunState>,
    desk: Store,
    trail: seq<Event>,
    sum: Summary,
    issued: nat,
    phase: Phase)

  function Emit(k: Kernel, e: Event): Kernel {
    k.(trail := k.trail + [e], sum := Read(k.sum, e))
  }

  /** _persist_state on a changed state: link to the previous checkpoint, put, report. A refused put
      escapes with the cached state changed. */
  function Save(k: Kernel, s: RunState): Result<Kernel, Kernel> {
    var linked := s.(parentCheckpointId := s.checkpointId, checkpointId := None);
    if !Consistent(linked) then Failure(k.(state := linked))
    else match NextVersion(k.stored, linked, Uuid(k.issued))
      case Failure(_) => Failure(k.(state := linked))
      case Success(w) =>
        Success(Emit(k.(state := w, stored := Some(w), lineage := k.lineage + [w], issued := k.issued + 1),
                     CheckpointWritten(w.checkpointId.value, w.parentCheckpointId)))
  }

  function Complete(k: Kernel): Result<Kernel, Kernel> {
    var k1 :- Save(k, k.state.(currentStep := None, status := COMPLETED));
    Success(Emit(k1, RunCompleted).(phase := Idle))
  }

  function FailRun(k: Kernel, error: string): Result<Kernel, Kernel> {
    var k1 :- Save(k, k.state.(status := FAILED, error := Some(error)));
    Success(Emit(k1, RunFailed).(phase := Idle))
  }

  function AskApproval(k: Kernel, step: string, payload: Value): Result<Kernel, Kernel> {
    var k1 :- Save(k,
        k.state.(pendingApproval := Some(step), status := WAITING_APPROVAL, pendingInput := Some(payload)));
    Success(Emit(k1, ApprovalRequested(step)).(phase := Idle))
  }

  // ---- one loop iteration ----

  predicate Gated(step: Step) {
    step.approvalOverride.GetOr(step.executor.gated)
  }

  predicate RequiresApproval(step: Step, s: RunState) {
    step.name !in s.approvedSteps && Gated(step)
  }

  /** A handoff outside an agent's allowlist fails the execution; a tool never hands off. */
  function Admitted(step: Step, outcome: Outcome): Outcome {
    if !outcome.Finished? || outcome.handoff.None? then outcome
    else if step.executor.Tool? then outcome.(handoff := None)
    else if outcome.handoff.value in step.executor.handoffs then outcome
    else Fails("disallowed handoff")
  }

  /** _apply_state_update: each channel through its reducer; None when a reducer raises. */
  function ApplyUpdate(setup: Setup, channels: map<string, Value>, update: map<string, Value>)
    : Option<map<string, Value>>
  {
    if exists c | c in update :: setup.reduce(c, Get(channels, c), update[c]).None? then None
    else Some(channels + Reductions(setup, channels, update))
  }

  function Reductions(setup: Setup, channels: map<string, Value>, update: map<string, Value>): map<string, Value> {
    map c | c in update :: setup.reduce(c, Get(channels, c), update[c]).GetOr(Null)
  }

  /** The channels an update leaves when a reducer raises: those before it are updated. */
  function Reached(setup: Setup, channels: map<string, Value>, update: map<string, Value>,
                   keys: seq<string>): map<string, Value>
    decreases |keys|
  {
    if keys == [] then channels
    else if keys[0] !in update then Reached(setup, channels, update, keys[1..])
    else match setup.reduce(keys[0], Get(channels, keys[0]), update[keys[0]])
      case None => channels
      case Some(v) => Reached(setup, channels[keys[0] := v], update, keys[1..])
  }

  function OutputOf(output: Value, command: Option<Command>): Value {
    if command.Some? then command.value.output.GetOr(output) else output
  }

  function GotoOf(command: Option<Command>): Option<string> {
    if command.Some? then command.value.goto else None
  }

  /** The state after an execution is recorded, before it is saved. */
  function Recorded(s: RunState, step: Step, output: Value, channels: map<string, Value>): RunState {
    s.(channels := channels,
       artifacts := s.artifacts[step.emittedArtifact.GetOr(step.name) := output],
       completedSteps := AddOnce(s.completedSteps, step.name))
  }

  /** A reducer has raised: the cached state keeps the channels updated so far. */
  function Halfway(setup: Setup, k: Kernel, update: map<string, Value>): Kernel {
    k.(state := k.state.(channels := Reached(setup, k.state.channels, update, setup.order(update))))
  }

  /** Applies the command's update, records the output, saves; the approval token goes afterwards. */
  function Record(setup: Setup, k: Kernel, step: Step, output: Value,
                  command: Option<Command>): Result<Kernel, Kernel>
  {
    var update := if command.Some? then command.value.stateUpdate else map[];
    match ApplyUpdate(setup, k.state.channels, update)
    case None => Failure(Halfway(setup, k, update))
    case Some(channels) =>
      var k1 :- Save(k, Recorded(k.state, step, output, channels));
      Success(k1.(state := k1.state.(approvedSteps := k1.state.approvedSteps - {step.name})))
  }

  /** Creates the interrupt request, saves the waiting run with its continuation, and sets the
      request's epoch to the run's new one. */
  function Pause(setup: Setup, k: Kernel, step: Step, output: Value, handoff: Option<string>, command: Command,
                 now: int): Result<Kernel, Kernel>
    requires command.interrupt.Some?
  {
    var ttl := command.interrupt.value.ttlSeconds.GetOr(setup.defaultTtl);
    var (desk, created) :=
      Created(k.desk, k.state.runId, step.name, ttl, Some(k.state.epoch), Some(setup.maxPending), now, Uuid(k.issued));
    match created
    case Failure(_) => Failure(k.(desk := desk))
    case Success(q) =>
      var k1 :- Save(k.(desk := desk, issued := k.issued + 1),
                     k.state.(pendingInterruptId := Some(q.interruptId), status := WAITING_INTERRUPT,
                              pendingResume := Some(Continuation(step.name, output, handoff, command))));
      var k2 := if q.epoch != k1.state.epoch then k1.(desk := Saved(k1.desk, q.(epoch := k1.state.epoch))) else k1;
      Success(Emit(k2, InterruptRequested(step.name, q.interruptId, k1.state.epoch)).(phase := Idle))
  }

  /** _emit_transition_events, then on to the next step or to completion. */
  function Transit(k: Kernel, step: string, next: string, handoff: Option<string>,
                   payload: Value): Result<Kernel, Kernel>
  {
    var k1 := if handoff.Some? then Emit(k, HandoffAccepted(handoff.value, next)) else k;
    var k2 := Emit(k1, TransitionChosen(step, next));
    if next == END_STEP then Complete(k2)
    else
      var k3 :- Save(k2, k2.state.(currentStep := Some(next)));
      Success(k3.(phase := Advancing(payload)))
  }

  /** Routing inside the loop: an error fails the run. */
  function Route(setup: Setup, k: Kernel, step: Step, output: Value, handoff: Option<string>,
                 command: Option<Command>): Result<Kernel, Kernel>
  {
    match RouteNext(step, output, setup.workflow.steps, handoff, GotoOf(command), setup.str)
    case Success(next) => Transit(k, step.name, next, handoff, output)
    case Failure(_) =>
      FailRun(if handoff.Some? then Emit(k, HandoffRejected(handoff.value)) else k, "illegal transition")
  }

  function Finish(setup: Setup, k: Kernel, step: Step, out: Outcome, now: int): Result<Kernel, Kernel>
    requires out.Finished?
  {
    var output := OutputOf(out.output, out.command);
    var k1 :- Record(setup, k, step, output, out.command);
    if out.command.Some? && out.command.value.interrupt.Some?
    then Pause(setup, k1, step, output, out.handoff, out.command.value, now)
    else Route(setup, k1, step, output, out.handoff, out.command)
  }

  function Execute(setup: Setup, k: Kernel, step: Step, payload: Value, turn: Turn): Result<Kernel, Kernel> {
    var k1 := Emit(k, ExecutionStarted(step.name));
    match Admitted(step, turn.outcome)
    case NeedsApproval => AskApproval(k1, step.name, payload)
    case Fails(error) => FailRun(k1, error)
    case Finished(output, handoff, command) =>
      Finish(setup, Emit(k1, ExecutionCompleted(step.name)), step, Finished(output, handoff, command), turn.now)
  }

  predicate MissingArtifact(step: Step, artifacts: map<string, Value>) {
    exists a | a in step.requiredArtifacts :: a !in artifacts
  }

  /** The body of the loop; Failure is an exception that escapes it with the run not at rest. */
  function Attempt(setup: Setup, k: Kernel, payload: Value, turn: Turn): Result<Kernel, Kernel> {
    if k.state.currentStep.None? then Complete(k)
    else match Find(setup.workflow.steps, k.state.currentStep.value)
      case None => Failure(k)
      case Some(step) =>
        var k1 := Emit(k, StepEntered(step.name));
        if MissingArtifact(step, k.state.artifacts) then Failure(k1)
        else if RequiresApproval(step, k.state) then AskApproval(k1, step.name, payload)
        else if turn.denied.Some? then FailRun(Emit(k1, PolicyDenied(step.name)), turn.denied.value)
        else Execute(setup, k1, step, payload, turn)
  }

  function Settle(r: Result<Kernel, Kernel>): Kernel {
    match r
    case Success(k) => k
    case Failure(k) => k.(phase := Crashed)
  }

  function Iterate(setup: Setup, k: Kernel, turn: Turn): Kernel
    requires k.phase.Advancing?
  {
    Settle(Attempt(setup, k, k.phase.payload, turn))
  }

  // ---- resuming ----

  function ResumeApproval(k: Kernel, payload: ResumePayload): Result<Kernel, Kernel> {
    if k.state.pendingApproval.None? || payload.Answer? then Success(k)
    else if payload.Reject? then
      FailRun(Emit(k, ApprovalRejected(k.state.currentStep)).(state := k.state.(pendingApproval := None)),
          payload.reason)
    else
      var s := k.state.(approvedSteps := k.state.approvedSteps + {k.state.pendingApproval.value},
                        pendingInput := None, pendingApproval := None, status := RUNNING);
      var k1 :- Save(Emit(k, ApprovalGranted(k.state.currentStep)), s);
      Success(k1.(phase := Advancing(k.state.pendingInput.GetOr(Null))))
  }

  /** After the answer is in: follow the saved transition. A step named "" counts as no saved
      transition at all. Routing errors escape. */
  function FollowContinuation(setup: Setup, k: Kernel, response: Value): Result<Kernel, Kernel> {
    var c := k.state.pendingResume;
    var k1 := k.(state := k.state.(pendingResume := None));
    if c.None? || c.value.stepName == "" then Success(k1.(phase := Advancing(response)))
    else match Find(setup.workflow.steps, c.value.stepName)
      case None => Failure(k1)
      case Some(step) =>
        match RouteNext(step, c.value.output, setup.workflow.steps, c.value.handoff, c.value.command.goto, setup.str)
        case Failure(_) => Failure(k1)
        case Success(next) =>
          Transit(k1, c.value.stepName, next, c.value.handoff, if response.Null? then c.value.output else response)
  }

  function ResumeInterrupt(setup: Setup, k: Kernel, payload: ResumePayload, now: int): Result<Kernel, Kernel> {
    if k.state.pendingInterruptId.None? || !payload.Answer? then Success(k)
    else
      var (desk, settled) :=
        Settled(k.desk, k.state.runId, payload.interruptId, Some(payload.epoch.GetOr(k.state.epoch)), now);
      match settled
      case Failure(e) =>
        Success(Emit(k.(desk := desk),
                     if e.HasExpired? then InterruptExpired(payload.interruptId)
                       else InterruptRejectedEpoch(payload.interruptId)))
      case Success(_) =>
        var k1 :- Save(k.(desk := Bumped(desk, k.state.runId)),
            k.state.(pendingInterruptId := None, status := RUNNING));
        FollowContinuation(setup, Emit(k1, InterruptResolved(payload.interruptId)), payload.response)
  }

  /** resume_workflow; a run that is not waiting, or a payload of the wrong kind, changes nothing. */
  function Resume(setup: Setup, k: Kernel, payload: ResumePayload, now: int): Kernel {
    match k.state.status
    case WAITING_APPROVAL => Settle(ResumeApproval(k, payload))
    case WAITING_INTERRUPT => Settle(ResumeInterrupt(setup, k, payload, now))
    case _ => k
  }

  // ---- beginning ----

  const BLANK := RunState("", "", None, None, 0, PENDING, None, [], map[], map[], None, None, None, {}, None, None)

  function Newborn(s: RunState, issued: nat): Kernel {
    Kernel(s, None, [], Bumped(EMPTY_STORE, s.runId), [], UNREAD, issued, Idle)
  }

  /** run_workflow up to the loop. */
  function Begin(setup: Setup, runId: string, threadId: string, entry: string, data: Value, issued: nat): Kernel {
    Settle(TryBegin(setup, runId, threadId, entry, data, issued))
  }

  function TryBegin(setup: Setup, runId: string, threadId: string, entry: string, data: Value,
                    issued: nat): Result<Kernel, Kernel>
  {
    var s := BLANK.(runId := runId, threadId := threadId, currentStep := Some(entry),
        channels := setup.channelDefaults);
    var k1 :- Save(Newborn(s, issued), s);
    var k2 := Emit(k1, RunStarted(Some(entry)));
    var k3 :- Save(k2, k2.state.(status := RUNNING));
    Success(k3.(phase := Advancing(data)))
  }

  /** resume_from_checkpoint up to the loop; the snapshot keeps its own checkpoint id as the parent. */
  function Restore(snapshot: RunState, source: string, runId: string, payload: Value, issued: nat): Kernel {
    Settle(TryRestore(snapshot, source, runId, payload, issued))
  }

  function TryRestore(snapshot: RunState, source: string, runId: string, payload: Value,
                      issued: nat): Result<Kernel, Kernel>
  {
    var s := snapshot.(runId := runId, pendingApproval := None, pendingInterruptId := None, error := None,
                       status := RUNNING, pendingInput := None, pendingResume := None);
    var k1 :- Save(Newborn(s, issued), s);
    var k2 := Emit(k1, CheckpointRestored(source));
    var k3 := Emit(k2, RunStarted(s.currentStep));
    Success(k3.(phase := Advancing(payload)))
  }

  // ---- whole runs ----

  /** The loop takes a turn, a caller resumes, someone lists the pending interrupts or looks at one of
      them, the store is swept, the run's settled and expired requests are cleared, other runs of the
      runtime draw uuids, or the runtime ends and another one goes by what is stored. */
  datatype Label =
    | Go(turn: Turn)
    | Call(payload: ResumePayload, now: int)
    | Poll(now: int)
    | Look(id: string, now: int)
    | Sweep(now: int)
    | Clear(now: int)
    | Others(drawn: nat)
    | Lost

  /** The interrupt store after such a label. */
  function Tended(desk: Store, runId: string, l: Label): Store {
    match l
    case Poll(now) => AgedRun(desk, runId, now)
    case Look(id, now) => Looked(desk, runId, id, now).0
    case Sweep(now) => Swept(desk, now)
    case Clear(now) => Cleared(desk, runId, now)
    case _ => desk
  }

  function Next(setup: Setup, k: Kernel, l: Label): Kernel {
    match l
    case Go(turn) => if k.phase.Advancing? then Iterate(setup, k, turn) else k
    case Call(payload, now) => if k.phase.Idle? then Resume(setup, k, payload, now) else k
    case Others(drawn) => k.(issued := k.issued + drawn)
    case Lost => if k.phase.Idle? then k else k.(state := k.stored.GetOr(k.state), phase := Crashed)
    case _ => k.(desk := Tended(k.desk, k.state.runId, l))
  }

  function Run(setup: Setup, k: Kernel, labels: seq<Label>): Kernel
    decreases |labels|
  {
    if labels == [] then k else Run(setup, Next(setup, k, labels[0]), labels[1..])
  }
}
