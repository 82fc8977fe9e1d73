/** The run state record and the values it carries (governai/models/run_state.py, command.py). */
module RunStates {
  import opened Prelude
  import opened Values

  datatype Status = PENDING | RUNNING | WAITING_APPROVAL | WAITING_INTERRUPT | COMPLETED | FAILED

  datatype InterruptInstruction = InterruptInstruction(ttlSeconds: Option<int>)

  datatype Command = Command(
    goto: Option<string>,
    stateUpdate: map<string, Value>,
    interrupt: Option<InterruptInstruction>,
    output: Option<Value>)

  /** metadata["pending_interrupt_resume"]: the transition saved while an interrupt is open. */
  datatype Continuation = Continuation(
    stepName: string,
    output: Value,
    handoff: Option<string>,
    command: Command)

  /** The metadata keys the runtime reserves are fields of their own; updated_at is not kept. */
  datatype RunState = RunState(
    runId: string,
    threadId: string,
    checkpointId: Option<string>,
    parentCheckpointId: Option<string>,
    epoch: nat,
    status: Status,
    currentStep: Option<string>,
    completedSteps: seq<string>,
    artifacts: map<string, Value>,
    channels: map<string, Value>,
    pendingApproval: Option<string>,
    pendingInterruptId: Option<string>,
    error: Option<string>,
    approvedSteps: set<string>,
    pendingInput: Option<Value>,
    pendingResume: Option<Continuation>)

  /** _validate_state: what a store checks before it writes. */
  predicate Consistent(s: RunState) {
    && (s.status == WAITING_INTERRUPT ==> s.pendingInterruptId.Some?)
    && (s.status == WAITING_APPROVAL ==> s.pendingApproval.Some?)
  }

  predicate Terminal(status: Status) {
    status == COMPLETED || status == FAILED
  }

  /** `state.checkpoint_id or str(uuid.uuid4())`: the caller's id when it is non-empty, else a new one. */
  function ChosenId(s: RunState, newId: string): string {
    if s.checkpointId.Some? && s.checkpointId.value != "" then s.checkpointId.value else newId
  }

  /** The n-th uuid: a text never produced before, without a colon. */
  function Uuid(n: nat): (id: string)
    ensures |id| == n + 1 && ':' !in id
  {
    seq(n + 1, _ => 'u')
  }
}
