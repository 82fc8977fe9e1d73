/** The remote agent turn protocol (governai/runtime/local.py, lines 999-1101, and
    governai/sandbox/service.py, lines 33-88 and 188-266) against direct local execution
    (governai/agents/context.py, lines 47-56, and base.py, lines 65-106). */
module RemoteAgent {
  import opened Prelude
  import opened Values

  type Record = map<string, Value>

  datatype AgentResult =
    | Final(output: Record)
    | Handoff(nextAgent: string, payload: Record)
    | NeedsApproval
    | Unsuccessful

  /** A handler: it returns, or calls a tool and goes on with the tool's result. It catches nothing. */
  datatype Handler = Return(result: AgentResult) | Call(tool: string, payload: Value, next: Record -> Handler)

  /** Validation against a pydantic model and dumping again; None when it raises. */
  datatype Agent = Agent(
    allowedTools: set<string>,
    allowedHandoffs: set<string>,
    maxToolCalls: nat,
    validateInput: Value -> Option<Record>,
    validateOutput: Record -> Option<Record>)

  datatype ToolCall = ToolCall(tool: string, payload: Value)

  datatype Error =
    | ToolNotAllowed
    | LimitExceeded
    | ToolFailed
    | InvalidData
    | DisallowedHandoff
    | AgentFailed
    | RemoteFailure
    | NoToolCall

  datatype Exit = Output(payload: Record) | HandedOff(agent: string,
      payload: Record) | ApprovalRequired | Raised(error: Error)

  /** How a governed tool execution ends. */
  datatype ToolReply = Reply(result: Record) | ToolApproval | ToolError

  /** The governed tools: the reply may depend on everything executed before. */
  type Tools = (seq<ToolCall>, string, Value) -> ToolReply

  function ToolExit(r: ToolReply): Exit
    requires !r.Reply?
  {
    if r.ToolApproval? then ApprovalRequired else Raised(ToolFailed)
  }

  /** Executions that governance has let through, in order; every one is recorded. */
  class Governor {
    const tools: Tools
    var executed: seq<ToolCall>

    constructor (tools: Tools)
      ensures this.tools == tools && executed == []
    {
      this.tools := tools;
      executed := [];
    }

    method Execute(tool: string, payload: Value) returns (r: ToolReply)
      modifies this
      ensures r == tools(old(executed), tool, payload) && executed == old(executed) + [ToolCall(tool, payload)]
    {
      r := tools(executed, tool, payload);
      executed := executed + [ToolCall(tool, payload)];
    }
  }

  // ---- local execution ----

  class AgentExecutionContext {
    const allowedTools: set<string>
    const maxToolCalls: nat
    const caller: Governor
    var toolCalls: nat

    constructor (agent: Agent, caller: Governor)
      ensures allowedTools == agent.allowedTools && maxToolCalls == agent.maxToolCalls && this.caller == caller
        && toolCalls == 0
    {
      allowedTools := agent.allowedTools;
      maxToolCalls := agent.maxToolCalls;
      this.caller := caller;
      toolCalls := 0;
    }

    /** A refused call neither counts nor reaches the tool. */
    method UseTool(name: string, payload: Value) returns (r: Result<Record, Exit>)
      modifies this, caller
      ensures
        if name !in allowedTools then
          r == Failure(Raised(ToolNotAllowed)) && toolCalls == old(toolCalls) && caller.executed == old(caller.executed)
        else if old(toolCalls) >= maxToolCalls then
          r == Failure(Raised(LimitExceeded)) && toolCalls == old(toolCalls) && caller.executed == old(caller.executed)
        else
          var reply := caller.tools(old(caller.executed), name, payload);
          && toolCalls == old(toolCalls) + 1
          && caller.executed == old(caller.executed) + [ToolCall(name, payload)]
          && match reply
             case Reply(result) => r == Success(result)
             case ToolApproval => r == Failure(ApprovalRequired)
             case ToolError => r == Failure(Raised(ToolFailed))
    {
      if name !in allowedTools {
        return Failure(Raised(ToolNotAllowed));
      }
      if toolCalls >= maxToolCalls {
        return Failure(Raised(LimitExceeded));
      }
      toolCalls := toolCalls + 1;
      var reply := caller.Execute(name, payload);
      return if reply.Reply? then Success(reply.result) else Failure(ToolExit(reply));
    }
  }

  /** What a handler's result comes to when the agent runs locally. */
  function LocalResult(agent: Agent, result: AgentResult): Exit {
    match result
    case Final(output) =>
      (match agent.validateOutput(output)
       case Some(v) => Output(v)
       case None => Raised(InvalidData))
    case Handoff(next, payload) =>
      if next in agent.allowedHandoffs then HandedOff(next, payload) else Raised(DisallowedHandoff)
    case NeedsApproval => ApprovalRequired
    case Unsuccessful => Raised(AgentFailed)
  }

  /** The specification: the exit and the executions of a handler that has used some calls already. */
  function LocalRun(agent: Agent, tools: Tools, h: Handler, used: nat, executed: seq<ToolCall>): (Exit, seq<ToolCall>)
    requires used <= agent.maxToolCalls
    decreases agent.maxToolCalls - used
  {
    match h
    case Return(result) => (LocalResult(agent, result), executed)
    case Call(tool, payload, next) =>
      if tool !in agent.allowedTools then (Raised(ToolNotAllowed), executed)
      else if used >= agent.maxToolCalls then (Raised(LimitExceeded), executed)
      else
        var reply := tools(executed, tool, payload);
        var after := executed + [ToolCall(tool, payload)];
        if reply.Reply? then LocalRun(agent, tools, next(reply.result), used + 1, after) else (ToolExit(reply), after)
  }

  function LocalAgent(agent: Agent, tools: Tools, handler: Record -> Handler, data: Value): (Exit, seq<ToolCall>) {
    match agent.validateInput(data)
    case None => (Raised(InvalidData), [])
    case Some(input) => LocalRun(agent, tools, handler(input), 0, [])
  }

  method ExecuteLocally(agent: Agent, caller: Governor, handler: Record -> Handler, data: Value) returns (exit: Exit)
    requires caller.executed == []
    modifies caller
    ensures (exit, caller.executed) == LocalAgent(agent, caller.tools, handler, data)
  {
    var input := agent.validateInput(data);
    if input.None? {
      return Raised(InvalidData);
    }
    var ctx := new AgentExecutionContext(agent, caller);
    var h := handler(input.value);
    while h.Call?
      invariant ctx.caller == caller && ctx.allowedTools == agent.allowedTools && ctx.maxToolCalls == agent.maxToolCalls
      invariant ctx.toolCalls <= agent.maxToolCalls
      invariant LocalRun(agent, caller.tools, h, ctx.toolCalls, caller.executed)
             == LocalRun(agent, caller.tools, handler(input.value), 0, [])
      decreases agent.maxToolCalls - ctx.toolCalls
    {
      var r := ctx.UseTool(h.tool, h.payload);
      if r.Failure? {
        return r.error;
      }
      h := h.next(r.value);
    }
    return LocalResult(agent, h.result);
  }

  // ---- the worker's side of a turn ----

  datatype Request = Request(input: Record, toolCallsUsed: nat, resume: Option<(string, Record)>)

  datatype Status =
    | FinalStatus(output: Record)
    | HandoffStatus(nextAgent: string)
    | ApprovalStatus
    | FailedStatus
    | ToolCallStatus(call: Option<ToolCall>)

  datatype Response = Response(failed: bool, status: Status)

  const ERROR := Response(true, FailedStatus)

  /** A payload that is not a dictionary is wrapped for transport. */
  function Normalized(payload: Value): Value {
    if payload.Dict? then payload else Dict(map["value" := payload])
  }

  datatype Stop = Pending(call: ToolCall) | Exception

  class RemoteAgentExecutionContext {
    const allowedTools: set<string>
    const maxToolCalls: nat
    var toolCalls: nat
    var resume: Option<(string, Record)>

    constructor (agent: Agent, toolCallsUsed: nat, resume: Option<(string, Record)>)
      ensures allowedTools == agent.allowedTools && maxToolCalls == agent.maxToolCalls
      ensures toolCalls == toolCallsUsed && this.resume == resume
    {
      allowedTools := agent.allowedTools;
      maxToolCalls := agent.maxToolCalls;
      toolCalls := toolCallsUsed;
      this.resume := resume;
    }

    /** The first allowed call takes the result of the turn, if there is one for its tool; any other
        stops the turn. */
    method UseTool(name: string, payload: Value) returns (r: Result<Record, Stop>)
      modifies this
      ensures
        if name !in allowedTools then r == Failure(Exception) && resume == old(resume) && toolCalls == old(toolCalls)
        else if old(resume).Some? && old(resume).value.0 != name then
          r == Failure(Exception) && resume == old(resume) && toolCalls == old(toolCalls)
        else if old(resume).Some? then
          r == Success(old(resume).value.1) && resume == None && toolCalls == old(toolCalls)
        else if old(toolCalls) >= maxToolCalls then
          r == Failure(Exception) && resume == None && toolCalls == old(toolCalls)
        else
          && r == Failure(Pending(ToolCall(name, Normalized(payload)))) && resume == None
          && toolCalls == old(toolCalls) + 1
    {
      if name !in allowedTools {
        return Failure(Exception);
      }
      if resume.Some? {
        if resume.value.0 != name {
          return Failure(Exception);
        }
        var result := resume.value.1;
        resume := None;
        return Success(result);
      }
      if toolCalls >= maxToolCalls {
        return Failure(Exception);
      }
      toolCalls := toolCalls + 1;
      return Failure(Pending(ToolCall(name, Normalized(payload))));
    }
  }

  function WorkerResult(agent: Agent, result: AgentResult): Response {
    match result
    case Final(output) =>
      (match agent.validateOutput(output)
       case Some(v) => Response(false, FinalStatus(v))
       case None => ERROR)
    case Handoff(next, _) => if next in agent.allowedHandoffs then Response(false, HandoffStatus(next)) else ERROR
    case NeedsApproval => Response(false, ApprovalStatus)
    case Unsuccessful => ERROR
  }

  /** One turn of a handler from some point on. */
  function TurnFrom(agent: Agent, h: Handler, used: nat, resume: Option<(string, Record)>): Response
    decreases resume.Some?
  {
    match h
    case Return(result) => WorkerResult(agent, result)
    case Call(tool, payload, next) =>
      if tool !in agent.allowedTools then ERROR
      else match resume
        case Some(given) => if given.0 != tool then ERROR else TurnFrom(agent, next(given.1), used, None)
        case None =>
          if used >= agent.maxToolCalls then ERROR
          else Response(false, ToolCallStatus(Some(ToolCall(tool, Normalized(payload)))))
  }

  function Turn(agent: Agent, handler: Record -> Handler, request: Request): Response {
    match agent.validateInput(Dict(request.input))
    case None => ERROR
    case Some(input) => TurnFrom(agent, handler(input), request.toolCallsUsed, request.resume)
  }

  /** execute_agent: the handler runs from its start in every turn. */
  method ExecuteTurn(agent: Agent, handler: Record -> Handler, request: Request) returns (response: Response)
    ensures response == Turn(agent, handler, request)
  {
    var input := agent.validateInput(Dict(request.input));
    if input.None? {
      return ERROR;
    }
    var ctx := new RemoteAgentExecutionContext(agent, request.toolCallsUsed, request.resume);
    var h := handler(input.value);
    while h.Call?
      invariant ctx.allowedTools == agent.allowedTools && ctx.maxToolCalls == agent.maxToolCalls
      invariant ctx.toolCalls == request.toolCallsUsed
      invariant TurnFrom(agent, h, ctx.toolCalls, ctx.resume) == Turn(agent, handler, request)
      decreases ctx.resume.Some?
    {
      var r := ctx.UseTool(h.tool, h.payload);
      if r.Failure? {
        return match r.error
          case Pending(call) => Response(false, ToolCallStatus(Some(call)))
          case Exception => ERROR;
      }
      h := h.next(r.value);
    }
    return WorkerResult(agent, h.result);
  }

  // ---- the control loop ----

  /** Any sandbox at all: its response may depend on the turn and on the request. */
  type Adapter = (nat, Request) -> Response

  function RemoteResult(agent: Agent, status: Status): Exit
    requires !status.ToolCallStatus?
  {
    match status
    case FinalStatus(output) =>
      (match agent.validateOutput(output)
       case Some(v) => Output(v)
       case None => Raised(InvalidData))
    case HandoffStatus(next) =>
      if next in agent.allowedHandoffs then HandedOff(next, map[]) else Raised(DisallowedHandoff)
    case ApprovalStatus => ApprovalRequired
    case FailedStatus => Raised(AgentFailed)
  }

  /** The loop from some turn on: the exit, the executions, the number of turns taken. */
  function RemoteRun(agent: Agent, adapter: Adapter, tools: Tools, input: Record, used: nat,
                     resume: Option<(string, Record)>,
                     turn: nat, executed: seq<ToolCall>): (Exit, seq<ToolCall>, nat)
    requires used <= agent.maxToolCalls
    decreases agent.maxToolCalls - used
  {
    var response := adapter(turn, Request(input, used, resume));
    if response.failed then (Raised(RemoteFailure), executed, turn + 1)
    else if !response.status.ToolCallStatus? then (RemoteResult(agent, response.status), executed, turn + 1)
    else if response.status.call.None? then (Raised(NoToolCall), executed, turn + 1)
    else
      var call := response.status.call.value;
      if call.tool !in agent.allowedTools then (Raised(ToolNotAllowed), executed, turn + 1)
      else if used >= agent.maxToolCalls then (Raised(LimitExceeded), executed, turn + 1)
      else
        var reply := tools(executed, call.tool, call.payload);
        var after := executed + [call];
        if !reply.Reply? then (ToolExit(reply), after, turn + 1)
        else RemoteRun(agent, adapter, tools, input, used + 1, Some((call.tool, reply.result)), turn + 1, after)
  }

  function RemoteAgentRun(agent: Agent, adapter: Adapter, tools: Tools, data: Value): (Exit, seq<ToolCall>, nat) {
    match agent.validateInput(data)
    case None => (Raised(InvalidData), [], 0)
    case Some(input) => RemoteRun(agent, adapter, tools, input, 0, None, 0, [])
  }

  /** Whatever the sandbox answers, in whatever order: at most maxToolCalls executions, all of allowed
      tools, and at most one turn more than executions. */
  lemma {:induction false} RemoteBounded(agent: Agent, adapter: Adapter, tools: Tools, input: Record, used: nat,
                                         resume: Option<(string, Record)>, turn: nat, executed: seq<ToolCall>)
    requires used <= agent.maxToolCalls
    ensures
      var (_, after, turns) := RemoteRun(agent, adapter, tools, input, used, resume, turn, executed);
      && executed <= after && |after| - |executed| <= agent.maxToolCalls - used
      && (forall i | |executed| <= i < |after| :: after[i].tool in agent.allowedTools)
      && |after| - |executed| <= turns - turn <= |after| - |executed| + 1
    decreases agent.maxToolCalls - used
  {
    var response := adapter(turn, Request(input, used, resume));
    if !response.failed && response.status.ToolCallStatus? && response.status.call.Some? && used < agent.maxToolCalls {
      var call := response.status.call.value;
      var reply := tools(executed, call.tool, call.payload);
      if call.tool in agent.allowedTools && reply.Reply? {
        RemoteBounded(agent, adapter, tools, input, used + 1, Some((call.tool, reply.result)), turn + 1,
            executed + [call]);
      }
    }
  }

  /** _execute_agent_remote: whatever the sandbox answers, at most maxToolCalls executions and one turn
      more than that. */
  method ExecuteRemotely(agent: Agent, adapter: Adapter, caller: Governor, data: Value) returns (exit: Exit, turns: nat)
    requires caller.executed == []
    modifies caller
    ensures (exit, caller.executed, turns) == RemoteAgentRun(agent, adapter, caller.tools, data)
    ensures |caller.executed| <= agent.maxToolCalls && turns <= agent.maxToolCalls + 1
  {
    turns := 0;
    var input := agent.validateInput(data);
    if input.None? {
      return Raised(InvalidData), 0;
    }
    var used: nat := 0;
    var resume: Option<(string, Record)> := None;
    while true
      invariant used <= agent.maxToolCalls && turns == used && |caller.executed| == used
      invariant RemoteRun(agent, adapter, caller.tools, input.value, used, resume, turns, caller.executed)
             == RemoteRun(agent, adapter, caller.tools, input.value, 0, None, 0, [])
      decreases agent.maxToolCalls - used
    {
      var response := adapter(turns, Request(input.value, used, resume));
      turns := turns + 1;
      resume := None;
      if response.failed {
        return Raised(RemoteFailure), turns;
      }
      if !response.status.ToolCallStatus? {
        return RemoteResult(agent, response.status), turns;
      }
      if response.status.call.None? {
        return Raised(NoToolCall), turns;
      }
      var call := response.status.call.value;
      if call.tool !in agent.allowedTools {
        return Raised(ToolNotAllowed), turns;
      }
      if used >= agent.maxToolCalls {
        return Raised(LimitExceeded), turns;
      }
      var reply := caller.Execute(call.tool, call.payload);
      if !reply.Reply? {
        return ToolExit(reply), turns;
      }
      used := used + 1;
      resume := Some((call.tool, reply.result));
    }
  }

  // ---- remote agrees with local ----

  /** A sandbox that runs the agent's own handler. */
  function Honest(agent: Agent, handler: Record -> Handler): Adapter {
    (turn, request) => Turn(agent, handler, request)
  }

  /** At most one tool call on each path. */
  ghost predicate SingleCall(h: Handler) {
    h.Call? ==> forall r :: h.next(r).Return?
  }

  /** Both validations change nothing they have validated before. */
  ghost predicate Stable(agent: Agent) {
    && (forall d | agent.validateInput(d).Some? ::
         agent.validateInput(Dict(agent.validateInput(d).value)) == agent.validateInput(d))
    && (forall r | agent.validateOutput(r).Some? ::
         agent.validateOutput(agent.validateOutput(r).value) == agent.validateOutput(r))
  }

  /** Equal outputs; a handoff to the same agent, though its payload is dropped on the way; an approval
      request for an approval request; an error for an error. */
  predicate Corresponds(local: Exit, remote: Exit) {
    match local
    case Output(_) => remote == local
    case HandedOff(agent, _) => remote == HandedOff(agent, map[])
    case ApprovalRequired => remote == local
    case Raised(_) => remote.Raised?
  }

  lemma ReturnsCorrespond(agent: Agent, result: AgentResult)
    requires Stable(agent)
    ensures
      var response := WorkerResult(agent, result);
      var exit := if response.failed then Raised(RemoteFailure) else RemoteResult(agent, response.status);
      !response.status.ToolCallStatus? && Corresponds(LocalResult(agent, result), exit)
  {
  }

  /** Main result: when every path of the handler makes at most one call, or the agent may make only
      one (the default), running remotely corresponds to running locally, and the governed executions
      are the same apart from the wrapping of payloads. */
  lemma RemoteAgreesWithLocal(agent: Agent, tools: Tools, handler: Record -> Handler, data: Value)
    requires Stable(agent) && agent.validateInput(data).Some?
    requires
      var h := handler(agent.validateInput(data).value);
      && (SingleCall(h) || agent.maxToolCalls <= 1)
      && (h.Call? ==> tools([], h.tool, Normalized(h.payload)) == tools([], h.tool, h.payload))
    ensures
      var local := LocalAgent(agent, tools, handler, data);
      var remote := RemoteAgentRun(agent, Honest(agent, handler), tools, data);
      && Corresponds(local.0, remote.0)
      && |remote.1| == |local.1| <= 1
      && (forall i | 0 <= i < |local.1| :: remote.1[i] == ToolCall(local.1[i].tool, Normalized(local.1[i].payload)))
      && (remote.1 == local.1 <==> forall i | 0 <= i < |local.1| :: local.1[i].payload.Dict?)
      && remote.2 <= 2
  {
    var input := agent.validateInput(data).value;
    var h := handler(input);
    var adapter := Honest(agent, handler);
    assert forall turn, used, resume :: adapter(turn, Request(input, used, resume)) == TurnFrom(agent, h, used, resume);
    match h
    case Return(result) => ReturnsCorrespond(agent, result);
    case Call(tool, payload, next) =>
      OneCall(agent, tools, h, adapter, input);
  }

  lemma OneCall(agent: Agent, tools: Tools, h: Handler, adapter: Adapter, input: Record)
    requires Stable(agent) && h.Call? && (SingleCall(h) || agent.maxToolCalls <= 1)
    requires tools([], h.tool, Normalized(h.payload)) == tools([], h.tool, h.payload)
    requires forall turn, used, resume ::
      adapter(turn, Request(input, used, resume)) == TurnFrom(agent, h, used, resume)
    ensures
      var local := LocalRun(agent, tools, h, 0, []);
      var remote := RemoteRun(agent, adapter, tools, input, 0, None, 0, []);
      && Corresponds(local.0, remote.0)
      && local.1 == (if h.tool in agent.allowedTools && agent.maxToolCalls > 0 then [ToolCall(h.tool, h.payload)]
           else [])
      && remote.1 == (if h.tool in agent.allowedTools
           && agent.maxToolCalls > 0 then [ToolCall(h.tool, Normalized(h.payload))] else [])
      && remote.2 <= 2
  {
    var reply := tools([], h.tool, h.payload);
    var here, sent := ToolCall(h.tool, h.payload), ToolCall(h.tool, Normalized(h.payload));
    assert [] + [here] == [here] && [] + [sent] == [sent];
    assert adapter(0, Request(input, 0, None)) == TurnFrom(agent, h, 0, None);
    if h.tool in agent.allowedTools && agent.maxToolCalls > 0 && reply.Reply? {
      var resume := Some((h.tool, reply.result));
      var rest := h.next(reply.result);
      assert adapter(1, Request(input, 1, resume)) == TurnFrom(agent, h, 1, resume) == TurnFrom(agent, rest, 1, None);
      assert LocalRun(agent, tools, h, 0, []) == LocalRun(agent, tools, rest, 1, [here]);
      assert RemoteRun(agent, adapter, tools, input, 0, None, 0, [])
        == RemoteRun(agent, adapter, tools, input, 1, resume, 1, [sent]);
      if rest.Return? {
        ReturnsCorrespond(agent, rest.result);
      }
    }
  }

  // ---- handlers that call a tool a second time ----

  /** How a turn in which the handler returns ends the run. */
  function WorkerExit(agent: Agent, result: AgentResult): Exit {
    var response := WorkerResult(agent, result);
    if response.failed || response.status.ToolCallStatus? then Raised(RemoteFailure)
      else RemoteResult(agent, response.status)
  }

  /** The rest of a remote run once the first call h has been answered: every turn starts the handler
      again and gives its first call the latest result, whichever call that result was for. The exit, the
      executions and the number of turns. */
  function Replayed(agent: Agent, tools: Tools, h: Handler, given: Record, used: nat, executed: seq<ToolCall>)
    : (Exit, seq<ToolCall>, nat)
    requires h.Call? && used <= agent.maxToolCalls
    decreases agent.maxToolCalls - used
  {
    match h.next(given)
    case Return(result) => (WorkerExit(agent, result), executed, 1)
    case Call(tool, payload, _) =>
      if tool !in agent.allowedTools || used >= agent.maxToolCalls then (Raised(RemoteFailure), executed, 1)
      else
        var reply := tools(executed, tool, Normalized(payload));
        var after := executed + [ToolCall(tool, Normalized(payload))];
        if !reply.Reply? then (ToolExit(reply), after, 1)
        else if tool != h.tool then (Raised(RemoteFailure), after, 2)
        else
          var rest := Replayed(agent, tools, h, reply.result, used + 1, after);
          (rest.0, rest.1, rest.2 + 1)
  }

  /** The sandbox restarts this handler in every turn. */
  ghost predicate Restarts(agent: Agent, adapter: Adapter, input: Record, h: Handler) {
    forall turn, used, resume :: adapter(turn, Request(input, used, resume)) == TurnFrom(agent, h, used, resume)
  }

  lemma HonestRestarts(agent: Agent, handler: Record -> Handler, data: Value)
    requires Stable(agent) && agent.validateInput(data).Some?
    ensures var input := agent.validateInput(data).value; Restarts(agent, Honest(agent, handler), input, handler(input))
  {
  }

  lemma {:induction false} ReplaysFrom(agent: Agent, adapter: Adapter, tools: Tools, input: Record, h: Handler,
                                       given: Record,
                                       used: nat, turn: nat, executed: seq<ToolCall>)
    requires Restarts(agent, adapter, input, h) && h.Call? && h.tool in agent.allowedTools && used <= agent.maxToolCalls
    ensures
      var r := Replayed(agent, tools, h, given, used, executed);
      RemoteRun(agent, adapter, tools, input, used, Some((h.tool, given)), turn, executed) == (r.0, r.1, turn + r.2)
    decreases agent.maxToolCalls - used
  {
    var resume, rest := Some((h.tool, given)), h.next(given);
    assert adapter(turn, Request(input, used, resume)) == TurnFrom(agent, h, used, resume)
      == TurnFrom(agent, rest, used, None);
    if rest.Call? && rest.tool in agent.allowedTools && used < agent.maxToolCalls {
      var reply := tools(executed, rest.tool, Normalized(rest.payload));
      var after := executed + [ToolCall(rest.tool, Normalized(rest.payload))];
      if reply.Reply? {
        var next := Some((rest.tool, reply.result));
        if rest.tool == h.tool {
          ReplaysFrom(agent, adapter, tools, input, h, reply.result, used + 1, turn + 1, after);
        } else {
          assert adapter(turn + 1, Request(input, used + 1, next)) == TurnFrom(agent, h, used + 1, next) == ERROR;
        }
      }
    }
  }

  /** Main result on what the protocol does: of any handler that begins with an allowed call, for any
      tools, the remote run is the replay of its first call. */
  lemma RemoteReplays(agent: Agent, tools: Tools, handler: Record -> Handler, data: Value)
    requires Stable(agent) && agent.validateInput(data).Some? && handler(agent.validateInput(data).value).Call?
    requires handler(agent.validateInput(data).value).tool in agent.allowedTools && agent.maxToolCalls > 0
    ensures
      var h := handler(agent.validateInput(data).value);
      var sent := ToolCall(h.tool, Normalized(h.payload));
      var reply := tools([], sent.tool, sent.payload);
      RemoteAgentRun(agent, Honest(agent, handler), tools, data) ==
        if reply.Reply? then
          var r := Replayed(agent, tools, h, reply.result, 1, [sent]);
          (r.0, r.1, 1 + r.2)
        else (ToolExit(reply), [sent], 1)
  {
    var input := agent.validateInput(data).value;
    var h, adapter := handler(input), Honest(agent, handler);
    HonestRestarts(agent, handler, data);
    var sent := ToolCall(h.tool, Normalized(h.payload));
    var reply := tools([], sent.tool, sent.payload);
    assert [] + [sent] == [sent];
    assert adapter(0, Request(input, 0, None)) == TurnFrom(agent, h, 0, None);
    if reply.Reply? {
      ReplaysFrom(agent, adapter, tools, input, h, reply.result, 1, 1, [sent]);
    }
  }

  /** A handler, with its first result, that goes on to a second call. */
  ghost predicate CallsTwice(agent: Agent, tools: Tools, h: Handler, a: Record) {
    && h.Call? && h.tool in agent.allowedTools && agent.maxToolCalls > 0 && h.next(a).Call?
    && tools([], h.tool, h.payload) == Reply(a) == tools([], h.tool, Normalized(h.payload))
  }

  /** The second call goes through, and its tool replies: the same whether payloads are wrapped or not. */
  ghost predicate SecondReplies(agent: Agent, tools: Tools, h: Handler, a: Record, b: Record)
    requires CallsTwice(agent, tools, h, a)
  {
    var rest := h.next(a);
    && rest.tool in agent.allowedTools && agent.maxToolCalls > 1
    && tools([ToolCall(h.tool, h.payload)], rest.tool, rest.payload) == Reply(b)
    && tools([ToolCall(h.tool, Normalized(h.payload))], rest.tool, Normalized(rest.payload)) == Reply(b)
  }

  /** Two calls of different tools, whatever the payloads and however the handler goes on: remotely both
      tools are executed and the run fails in its third turn, which offers the second result to the first
      call; so it corresponds to the local run exactly when that ends with an error too. */
  lemma TwoCallsDiverge(agent: Agent, tools: Tools, handler: Record -> Handler, data: Value, a: Record, b: Record)
    requires Stable(agent) && agent.validateInput(data).Some?
    requires CallsTwice(agent, tools, handler(agent.validateInput(data).value), a)
    requires SecondReplies(agent, tools, handler(agent.validateInput(data).value), a, b)
    requires handler(agent.validateInput(data).value).next(a).tool != handler(agent.validateInput(data).value).tool
    ensures
      var h := handler(agent.validateInput(data).value);
      var rest := h.next(a);
      var local := LocalAgent(agent, tools, handler, data);
      var remote := RemoteAgentRun(agent, Honest(agent, handler), tools, data);
      && remote == (Raised(RemoteFailure),
                    [ToolCall(h.tool, Normalized(h.payload)), ToolCall(rest.tool, Normalized(rest.payload))], 3)
      && local == LocalRun(agent, tools, rest.next(b), 2,
           [ToolCall(h.tool, h.payload), ToolCall(rest.tool, rest.payload)])
      && (Corresponds(local.0, remote.0) <==> local.0.Raised?)
  {
    LocalTwice(agent, tools, handler, data, a, b);
    RemoteReplays(agent, tools, handler, data);
    var h := handler(agent.validateInput(data).value);
    ReplayTwice(agent, tools, h, a, b);
  }

  lemma LocalTwice(agent: Agent, tools: Tools, handler: Record -> Handler, data: Value, a: Record, b: Record)
    requires agent.validateInput(data).Some?
    requires CallsTwice(agent, tools, handler(agent.validateInput(data).value), a)
    requires SecondReplies(agent, tools, handler(agent.validateInput(data).value), a, b)
    ensures
      var h := handler(agent.validateInput(data).value);
      var rest := h.next(a);
      LocalAgent(agent, tools, handler, data) ==
        LocalRun(agent, tools, rest.next(b), 2, [ToolCall(h.tool, h.payload), ToolCall(rest.tool, rest.payload)])
  {
    var h := handler(agent.validateInput(data).value);
    var rest := h.next(a);
    var c1, c2 := ToolCall(h.tool, h.payload), ToolCall(rest.tool, rest.payload);
    assert [] + [c1] == [c1] && [c1] + [c2] == [c1, c2];
    LocalSteps(agent, tools, h, [], 0, Reply(a));
    LocalSteps(agent, tools, rest, [c1], 1, Reply(b));
  }

  lemma ReplayTwice(agent: Agent, tools: Tools, h: Handler, a: Record, b: Record)
    requires CallsTwice(agent, tools, h, a) && SecondReplies(agent, tools, h, a, b)
    ensures
      var rest := h.next(a);
      var first, both := [ToolCall(h.tool, Normalized(h.payload))],
                         [ToolCall(h.tool, Normalized(h.payload)), ToolCall(rest.tool, Normalized(rest.payload))];
      Replayed(agent, tools, h, a, 1, first) ==
        if rest.tool != h.tool then (Raised(RemoteFailure), both, 2)
        else (Replayed(agent, tools, h, b, 2, both).0, Replayed(agent, tools, h, b, 2, both).1,
            Replayed(agent, tools, h, b, 2, both).2 + 1)
  {
    var rest := h.next(a);
    var c1, c2 := ToolCall(h.tool, Normalized(h.payload)), ToolCall(rest.tool, Normalized(rest.payload));
    assert [c1] + [c2] == [c1, c2];
  }

  /** Over all handlers that go on to a second call of a different tool: remote and local correspond exactly
      when the local run raises, or the second call gets no result: refused, over budget, or stopped at
      its tool. */
  lemma SecondCallExactly(agent: Agent, tools: Tools, handler: Record -> Handler, data: Value, a: Record)
    requires Stable(agent) && agent.validateInput(data).Some?
    requires CallsTwice(agent, tools, handler(agent.validateInput(data).value), a)
    requires
      var h := handler(agent.validateInput(data).value);
      var rest := h.next(a);
      && rest.tool != h.tool
      && tools([ToolCall(h.tool, Normalized(h.payload))], rest.tool, Normalized(rest.payload))
           == tools([ToolCall(h.tool, h.payload)], rest.tool, rest.payload)
    ensures
      var h := handler(agent.validateInput(data).value);
      var rest := h.next(a);
      var local := LocalAgent(agent, tools, handler, data);
      var remote := RemoteAgentRun(agent, Honest(agent, handler), tools, data);
      Corresponds(local.0, remote.0) <==>
        local.0.Raised? || rest.tool !in agent.allowedTools || agent.maxToolCalls <= 1
        || !tools([ToolCall(h.tool, h.payload)], rest.tool, rest.payload).Reply?
  {
    var h := handler(agent.validateInput(data).value);
    var rest := h.next(a);
    var reply := tools([ToolCall(h.tool, h.payload)], rest.tool, rest.payload);
    if rest.tool in agent.allowedTools && agent.maxToolCalls > 1 && reply.Reply? {
      TwoCallsDiverge(agent, tools, handler, data, a, reply.result);
    } else {
      RemoteReplays(agent, tools, handler, data);
      assert [] + [ToolCall(h.tool, h.payload)] == [ToolCall(h.tool, h.payload)];
      LocalSteps(agent, tools, h, [], 0, Reply(a));
    }
  }

  /** Two calls of the same tool: remotely the second result replaces the first one, as if the handler had
      got it from its first call. If the handler returns on that, the remote run ends with that result
      and corresponds exactly when the local run, on both results, ends alike. */
  lemma SameToolReplays(agent: Agent, tools: Tools, handler: Record -> Handler, data: Value, a: Record, b: Record)
    requires Stable(agent) && agent.validateInput(data).Some?
    requires CallsTwice(agent, tools, handler(agent.validateInput(data).value), a)
    requires SecondReplies(agent, tools, handler(agent.validateInput(data).value), a, b)
    requires handler(agent.validateInput(data).value).next(a).tool == handler(agent.validateInput(data).value).tool
    requires handler(agent.validateInput(data).value).next(b).Return?
    ensures
      var h := handler(agent.validateInput(data).value);
      var local := LocalAgent(agent, tools, handler, data);
      var remote := RemoteAgentRun(agent, Honest(agent, handler), tools, data);
      && Corresponds(LocalResult(agent, h.next(b).result), remote.0) && remote.2 == 3 && |remote.1| == 2
      && local == LocalRun(agent, tools, h.next(a).next(b), 2,
           [ToolCall(h.tool, h.payload), ToolCall(h.tool, h.next(a).payload)])
      && (Corresponds(local.0, remote.0) <==> SameKind(local.0, LocalResult(agent, h.next(b).result)))
  {
    LocalTwice(agent, tools, handler, data, a, b);
    RemoteReplays(agent, tools, handler, data);
    var h := handler(agent.validateInput(data).value);
    ReplayTwice(agent, tools, h, a, b);
    ReturnsCorrespond(agent, h.next(b).result);
  }

  /** The same exit, but for what is lost on the way: the payload of a handoff and the kind of an error. */
  predicate SameKind(a: Exit, b: Exit) {
    match a
    case HandedOff(agent, _) => b.HandedOff? && b.agent == agent
    case Raised(_) => b.Raised?
    case _ => a == b
  }

  lemma LocalSteps(agent: Agent, tools: Tools, h: Handler, executed: seq<ToolCall>, used: nat, reply: ToolReply)
    requires h.Call? && h.tool in agent.allowedTools && used < agent.maxToolCalls
    requires reply.Reply? && tools(executed, h.tool, h.payload) == reply
    ensures LocalRun(agent, tools, h, used, executed)
         == LocalRun(agent, tools, h.next(reply.result), used + 1, executed + [ToolCall(h.tool, h.payload)])
  {
  }
}
