/** How an agent's execution ends, told from the calls that were executed: on the runtime's side and in
    the sandbox, for every handler and whatever the sandbox answers. */
module AgentExits {
  import opened Prelude
  import opened Values
  import opened RemoteAgent

  /** The answer governance gave to the i-th call. */
  function Answer(tools: Tools, calls: seq<ToolCall>, i: nat): ToolReply
    requires i < |calls|
  {
    tools(calls[..i], calls[i].tool, calls[i].payload)
  }

  /** The call after which nothing is executed any more was answered like this. */
  predicate Stopped(tools: Tools, calls: seq<ToolCall>, reply: ToolReply) {
    calls != [] && Answer(tools, calls, |calls| - 1) == reply
  }

  // ---- locally ----

  /** The handler, at first h, once it has been told the answers to the calls from `base` up to i. */
  function Told(tools: Tools, h: Handler, base: nat, calls: seq<ToolCall>, i: nat): Handler
    requires base <= i <= |calls|
    decreases i
  {
    if i == base then h
    else
      var before := Told(tools, h, base, calls, i - 1);
      var reply := Answer(tools, calls, i - 1);
      if before.Call? && reply.Reply? then before.next(reply.result) else before
  }

  /** What a handler that is stopped by no tool comes to. */
  function Ended(agent: Agent, h: Handler): Exit {
    match h
    case Return(Final(output)) =>
      if agent.validateOutput(output).Some? then Output(agent.validateOutput(output).value) else Raised(InvalidData)
    case Return(Handoff(next, payload)) =>
      if next in agent.allowedHandoffs then HandedOff(next, payload) else Raised(DisallowedHandoff)
    case Return(NeedsApproval) => ApprovalRequired
    case Return(Unsuccessful) => Raised(AgentFailed)
    case Call(tool, _, _) => if tool in agent.allowedTools then Raised(LimitExceeded) else Raised(ToolNotAllowed)
  }

  lemma {:induction false} ToldShifts(tools: Tools, h: Handler, base: nat, calls: seq<ToolCall>, i: nat)
    requires base < i <= |calls| && h.Call? && Answer(tools, calls, base).Reply?
    ensures Told(tools, h, base, calls, i)
      == Told(tools, h.next(Answer(tools, calls, base).result), base + 1, calls, i)
    decreases i
  {
    hide Answer;
    if i > base + 1 {
      ToldShifts(tools, h, base, calls, i - 1);
    } else {
      assert Told(tools, h, base, calls, base) == h;
    }
  }

  /** The calls executed are those the handler makes, each with the answers to all before it. */
  ghost predicate Made(agent: Agent, tools: Tools, h: Handler, base: nat, calls: seq<ToolCall>) {
    base <= |calls| && forall i | base <= i < |calls| ::
      var at := Told(tools, h, base, calls, i);
      && at.Call? && at.tool in agent.allowedTools && calls[i] == ToolCall(at.tool, at.payload)
      && (i < |calls| - 1 ==> Answer(tools, calls, i).Reply?)
  }

  predicate ExitsAs(agent: Agent, tools: Tools, h: Handler, base: nat, calls: seq<ToolCall>, exit: Exit)
    requires base <= |calls|
  {
    if base < |calls| && Answer(tools, calls, |calls| - 1) == ToolApproval then exit == ApprovalRequired
    else if base < |calls| && Answer(tools, calls, |calls| - 1) == ToolError then exit == Raised(ToolFailed)
    else exit == Ended(agent, Told(tools, h, base, calls, |calls|))
  }

  /** The handler's next call goes through to governance. */
  predicate Proceeds(agent: Agent, h: Handler, used: nat) {
    h.Call? && h.tool in agent.allowedTools && used < agent.maxToolCalls
  }

  lemma LocalUnfolds(agent: Agent, tools: Tools, h: Handler, used: nat, executed: seq<ToolCall>)
    requires used <= agent.maxToolCalls
    ensures LocalRun(agent, tools, h, used, executed) ==
      if !Proceeds(agent, h, used) then (Ended(agent, h), executed)
      else
        var reply := tools(executed, h.tool, h.payload);
        var after := executed + [ToolCall(h.tool, h.payload)];
        match reply
        case Reply(result) => LocalRun(agent, tools, h.next(result), used + 1, after)
        case ToolApproval => (ApprovalRequired, after)
        case ToolError => (Raised(ToolFailed), after)
  {
  }

  /** One more call in front. */
  lemma MadeMore(agent: Agent, tools: Tools, h: Handler, base: nat, calls: seq<ToolCall>, exit: Exit)
    requires base < |calls| && h.Call? && h.tool in agent.allowedTools && calls[base] == ToolCall(h.tool, h.payload)
    requires Answer(tools, calls, base).Reply?
    requires
      var next := h.next(Answer(tools, calls, base).result);
      Made(agent, tools, next, base + 1, calls) && ExitsAs(agent, tools, next, base + 1, calls, exit)
    ensures Made(agent, tools, h, base, calls) && ExitsAs(agent, tools, h, base, calls, exit)
  {
    hide Answer, Ended;
    var next := h.next(Answer(tools, calls, base).result);
    forall i | base < i <= |calls| ensures Told(tools, h, base, calls, i) == Told(tools, next, base + 1, calls, i) {
      ToldShifts(tools, h, base, calls, i);
    }
  }

  lemma AnswerAt(tools: Tools, executed: seq<ToolCall>, call: ToolCall, calls: seq<ToolCall>)
    requires executed + [call] <= calls
    ensures calls[|executed|] == call && Answer(tools, calls, |executed|) == tools(executed, call.tool, call.payload)
  {
    assert (executed + [call])[|executed|] == call;
    assert calls[..|executed|] == executed;
  }

  lemma {:induction false} LocalExits(agent: Agent, tools: Tools, h: Handler, used: nat, executed: seq<ToolCall>)
    requires used <= agent.maxToolCalls
    ensures
      var (exit, calls) := LocalRun(agent, tools, h, used, executed);
      && executed <= calls && |calls| - |executed| <= agent.maxToolCalls - used
      && Made(agent, tools, h, |executed|, calls) && ExitsAs(agent, tools, h, |executed|, calls, exit)
    decreases agent.maxToolCalls - used
  {
    hide LocalRun, Answer, Ended;
    LocalUnfolds(agent, tools, h, used, executed);
    if Proceeds(agent, h, used) {
      hide Made, ExitsAs;
      var reply := tools(executed, h.tool, h.payload);
      var call := ToolCall(h.tool, h.payload);
      var after := executed + [call];
      if reply.Reply? {
        LocalExits(agent, tools, h.next(reply.result), used + 1, after);
        var (exit, calls) := LocalRun(agent, tools, h.next(reply.result), used + 1, after);
        AnswerAt(tools, executed, call, calls);
        MadeMore(agent, tools, h, |executed|, calls, exit);
      } else {
        AnswerAt(tools, executed, call, after);
        MadeLast(agent, tools, h, |executed|, after);
      }
    }
  }

  lemma MadeLast(agent: Agent, tools: Tools, h: Handler, base: nat, calls: seq<ToolCall>)
    requires |calls| == base + 1 && h.Call? && h.tool in agent.allowedTools
      && calls[base] == ToolCall(h.tool, h.payload)
    ensures Made(agent, tools, h, base, calls)
    ensures Answer(tools, calls, base) == ToolApproval ==> ExitsAs(agent, tools, h, base, calls, ApprovalRequired)
    ensures Answer(tools, calls, base) == ToolError ==> ExitsAs(agent, tools, h, base, calls, Raised(ToolFailed))
  {
    hide Answer, Ended;
  }

  /** Main result: the calls of an agent executed locally are those its handler makes, at most as many as it
      may. A call answered with a demand for approval, or with an error, is the last, and the agent's exit
      then asks for approval, or is the tool's error; otherwise the exit is what the handler itself comes to
      once it has all the answers. */
  lemma LocalAgentExits(agent: Agent, tools: Tools, handler: Record -> Handler, data: Value)
    ensures agent.validateInput(data).None? ==> LocalAgent(agent, tools, handler, data) == (Raised(InvalidData), [])
    ensures agent.validateInput(data).Some? ==>
      var h := handler(agent.validateInput(data).value);
      var (exit, calls) := LocalAgent(agent, tools, handler, data);
      && |calls| <= agent.maxToolCalls && Made(agent, tools, h, 0, calls)
      && (Stopped(tools, calls, ToolApproval) ==> exit == ApprovalRequired)
      && (Stopped(tools, calls, ToolError) ==> exit == Raised(ToolFailed))
      && (!Stopped(tools, calls, ToolApproval) && !Stopped(tools, calls, ToolError) ==>
            exit == Ended(agent, Told(tools, h, 0, calls, |calls|)))
      && (exit == ApprovalRequired <==>
            Stopped(tools, calls, ToolApproval) ||
            (!Stopped(tools, calls, ToolError) && Told(tools, h, 0, calls, |calls|) == Return(NeedsApproval)))
  {
    hide LocalRun, Made, Answer, Told;
    if agent.validateInput(data).Some? {
      LocalExits(agent, tools, handler(agent.validateInput(data).value), 0, []);
    }
  }

  // ---- in the sandbox ----

  /** The i-th request: how many calls were executed, and the answer to the latest. */
  function Asked(tools: Tools, input: Record, calls: seq<ToolCall>, i: nat): Request
    requires i <= |calls|
  {
    Request(input, i,
        if i > 0 && Answer(tools, calls, i - 1).Reply?
        then Some((calls[i - 1].tool, Answer(tools, calls, i - 1).result)) else None)
  }

  /** What a response that leads to no execution comes to. */
  function Concluded(agent: Agent, response: Response): Exit {
    match response
    case Response(true, _) => Raised(RemoteFailure)
    case Response(false, FinalStatus(output)) =>
      if agent.validateOutput(output).Some? then Output(agent.validateOutput(output).value) else Raised(InvalidData)
    case Response(false, HandoffStatus(next)) =>
      if next in agent.allowedHandoffs then HandedOff(next, map[]) else Raised(DisallowedHandoff)
    case Response(false, ApprovalStatus) => ApprovalRequired
    case Response(false, FailedStatus) => Raised(AgentFailed)
    case Response(false, ToolCallStatus(None)) => Raised(NoToolCall)
    case Response(false, ToolCallStatus(Some(call))) =>
      if call.tool in agent.allowedTools then Raised(LimitExceeded) else Raised(ToolNotAllowed)
  }

  /** The calls executed from the base-th on are those the sandbox asked for, turn by turn. */
  ghost predicate Requested(agent: Agent, adapter: Adapter, tools: Tools, input: Record, base: nat,
                            calls: seq<ToolCall>)
  {
    forall i | base <= i < |calls| ::
      && adapter(i, Asked(tools, input, calls, i)) == Response(false, ToolCallStatus(Some(calls[i])))
      && calls[i].tool in agent.allowedTools && (i < |calls| - 1 ==> Answer(tools, calls, i).Reply?)
  }

  ghost predicate ConcludesAs(agent: Agent, adapter: Adapter, tools: Tools, input: Record, base: nat,
                              calls: seq<ToolCall>, exit: Exit, turns: nat)
    requires base <= |calls|
  {
    if base < |calls| && Answer(tools, calls, |calls| - 1) == ToolApproval
    then exit == ApprovalRequired && turns == |calls|
    else if base < |calls| && Answer(tools, calls, |calls| - 1) == ToolError
    then exit == Raised(ToolFailed) && turns == |calls|
    else exit == Concluded(agent, adapter(|calls|, Asked(tools, input, calls, |calls|))) && turns == |calls| + 1
  }

  /** The response asks for a call that goes through to governance. */
  predicate Goes(agent: Agent, response: Response, used: nat) {
    && !response.failed && response.status.ToolCallStatus? && response.status.call.Some?
    && response.status.call.value.tool in agent.allowedTools && used < agent.maxToolCalls
  }

  lemma RemoteUnfolds(agent: Agent, adapter: Adapter, tools: Tools, input: Record, n: nat,
                      resume: Option<(string, Record)>, executed: seq<ToolCall>)
    requires n <= agent.maxToolCalls
    ensures
      var response := adapter(n, Request(input, n, resume));
      RemoteRun(agent, adapter, tools, input, n, resume, n, executed) ==
        if !Goes(agent, response, n) then (Concluded(agent, response), executed, n + 1)
        else
          var call := response.status.call.value;
          match tools(executed, call.tool, call.payload)
          case Reply(result) =>
            RemoteRun(agent, adapter, tools, input, n + 1, Some((call.tool, result)), n + 1, executed + [call])
          case ToolApproval => (ApprovalRequired, executed + [call], n + 1)
          case ToolError => (Raised(ToolFailed), executed + [call], n + 1)
  {
  }

  lemma {:induction false} RemoteExits(agent: Agent, adapter: Adapter, tools: Tools, input: Record, n: nat,
                                       resume: Option<(string, Record)>, executed: seq<ToolCall>)
    requires n == |executed| <= agent.maxToolCalls && Asked(tools, input, executed, n) == Request(input, n, resume)
    ensures
      var (exit, calls, turns) := RemoteRun(agent, adapter, tools, input, n, resume, n, executed);
      && executed <= calls && |calls| <= agent.maxToolCalls
      && Requested(agent, adapter, tools, input, n, calls)
      && ConcludesAs(agent, adapter, tools, input, n, calls, exit, turns)
    decreases agent.maxToolCalls - n
  {
    hide RemoteRun, Answer, Concluded, Asked;
    RemoteUnfolds(agent, adapter, tools, input, n, resume, executed);
    var response := adapter(n, Request(input, n, resume));
    if Goes(agent, response, n) {
      var call := response.status.call.value;
      var reply := tools(executed, call.tool, call.payload);
      var after := executed + [call];
      assert response == Response(false, ToolCallStatus(Some(call)));
      AnswerAt(tools, executed, call, after);
      if reply.Reply? {
        var more := Some((call.tool, reply.result));
        AskedNext(tools, input, executed, call, reply.result);
        RemoteExits(agent, adapter, tools, input, n + 1, more, after);
        var (_, calls, _) := RemoteRun(agent, adapter, tools, input, n + 1, more, n + 1, after);
        AnswerAt(tools, executed, call, calls);
        AskedAlike(tools, input, executed, calls);
      } else {
        AskedAlike(tools, input, executed, after);
      }
    }
  }

  lemma AskedNext(tools: Tools, input: Record, executed: seq<ToolCall>, call: ToolCall, result: Record)
    requires tools(executed, call.tool, call.payload) == Reply(result)
    ensures Asked(tools, input, executed + [call], |executed| + 1)
      == Request(input, |executed| + 1, Some((call.tool, result)))
  {
    AnswerAt(tools, executed, call, executed + [call]);
  }

  lemma AskedAlike(tools: Tools, input: Record, executed: seq<ToolCall>, calls: seq<ToolCall>)
    requires executed <= calls
    ensures Asked(tools, input, calls, |executed|) == Asked(tools, input, executed, |executed|)
  {
    var n := |executed|;
    if n > 0 {
      assert calls[..n - 1] == executed[..n - 1] && calls[n - 1] == executed[n - 1];
    }
  }

  lemma ConcludedApproval(agent: Agent)
    ensures forall response :: Concluded(agent, response) == ApprovalRequired <==>
      response == Response(false, ApprovalStatus)
  {
  }

  /** Main result: the same of an agent in a sandbox, whatever the sandbox is. Its calls are those asked for
      in its first turns; one answered with a demand for approval, or with an error, is the last and decides
      the exit; otherwise the response to one more turn does. */
  lemma RemoteAgentExits(agent: Agent, adapter: Adapter, tools: Tools, data: Value)
    ensures agent.validateInput(data).None? ==>
      RemoteAgentRun(agent, adapter, tools, data) == (Raised(InvalidData), [], 0)
    ensures agent.validateInput(data).Some? ==>
      var input := agent.validateInput(data).value;
      var (exit, calls, turns) := RemoteAgentRun(agent, adapter, tools, data);
      && |calls| <= agent.maxToolCalls && Requested(agent, adapter, tools, input, 0, calls)
      && (Stopped(tools, calls, ToolApproval) ==> exit == ApprovalRequired && turns == |calls|)
      && (Stopped(tools, calls, ToolError) ==> exit == Raised(ToolFailed) && turns == |calls|)
      && (!Stopped(tools, calls, ToolApproval) && !Stopped(tools, calls, ToolError) ==>
            && turns == |calls| + 1
            && exit == Concluded(agent, adapter(|calls|, Asked(tools, input, calls, |calls|))))
      && (exit == ApprovalRequired <==>
            || Stopped(tools, calls, ToolApproval)
            || (!Stopped(tools, calls, ToolError)
                && adapter(|calls|, Asked(tools, input, calls, |calls|)) == Response(false, ApprovalStatus)))
  {
    hide RemoteRun, Requested, Concluded, Answer;
    if agent.validateInput(data).Some? {
      ConcludedApproval(agent);
      RemoteExits(agent, adapter, tools, agent.validateInput(data).value, 0, None, []);
    }
  }

  // ---- one turn in the sandbox ----

  /** Where a turn leaves the handler: past its first call, if the request brings the answer to it. */
  function Reached(h: Handler, resume: Option<(string, Record)>): Handler {
    if h.Call? && resume.Some? then h.next(resume.value.1) else h
  }

  /** A turn fails, or returns what the handler returns, or asks for the handler's next call. It fails when
      the handler calls a tool it may not call, or not the tool the request brings an answer for, when its
      calls are used up, when it fails itself, or when its output is not valid. */
  lemma TurnResponds(agent: Agent, handler: Record -> Handler, request: Request)
    ensures
      var response := Turn(agent, handler, request);
      match agent.validateInput(Dict(request.input))
      case None => response.failed
      case Some(input) =>
        var h := handler(input);
        if h.Call? && request.resume.Some? && (h.tool !in agent.allowedTools || h.tool != request.resume.value.0)
        then response.failed
        else match Reached(h, request.resume)
          case Call(tool, payload, _) =>
            if tool in agent.allowedTools && request.toolCallsUsed < agent.maxToolCalls
            then response == Response(false, ToolCallStatus(Some(ToolCall(tool,
              if payload.Dict? then payload else Dict(map["value" := payload])))))
            else response.failed
          case Return(Final(output)) =>
            if agent.validateOutput(output).Some?
            then response == Response(false, FinalStatus(agent.validateOutput(output).value))
            else response.failed
          case Return(Handoff(next, _)) =>
            if next in agent.allowedHandoffs then response == Response(false, HandoffStatus(next)) else response.failed
          case Return(NeedsApproval) => response == Response(false, ApprovalStatus)
          case Return(Unsuccessful) => response.failed
  {
    var input := agent.validateInput(Dict(request.input));
    if input.Some? {
      var h := handler(input.value);
      if h.Call? && request.resume.Some? && h.tool in agent.allowedTools && h.tool == request.resume.value.0 {
        assert TurnFrom(agent, h, request.toolCallsUsed, request.resume)
          == TurnFrom(agent, Reached(h, request.resume), request.toolCallsUsed, None);
      }
    }
  }
}
