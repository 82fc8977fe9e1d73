/** What an instance of a workflow class does with its steps' executors: they are registered, then checked
    against the runtime's containment mode (governai/workflows/base.py, lines 249-260,
    governai/tools/registry.py, governai/agents/registry.py and governai/runtime/local.py, lines
    113-138). */
module Containment {
  import opened Prelude
  import opened Workflows

  /** What else an executor says of itself. */
  datatype Card = Card(version: string, remoteName: string, remote: bool, allowed: seq<string>)

  type Cards = Executor -> Card

  /** The version a tool is looked up by when only its name is given. */
  const VERSION := "0.0.0"

  /** The dictionaries of the two registries: tools by name and version, agents by name, the remote names
      of each. */
  datatype Shelf = Shelf(
    tools: map<(string, string), Executor>,
    toolRemotes: set<string>,
    agents: set<string>,
    agentRemotes: set<string>)

  const EMPTY_SHELF := Shelf(map[], {}, {}, {})

  // ---- registering ----

  predicate Has(shelf: Shelf, e: Executor) {
    if e.Tool? then (e.name, VERSION) in shelf.tools else e.name in shelf.agents
  }

  /** A key or a remote name is taken already. */
  predicate Clashes(shelf: Shelf, cards: Cards, e: Executor) {
    if e.Tool? then (e.name, cards(e).version) in shelf.tools || cards(e).remoteName in shelf.toolRemotes
    else e.name in shelf.agents || cards(e).remoteName in shelf.agentRemotes
  }

  function Added(shelf: Shelf, cards: Cards, e: Executor): Shelf {
    if e.Tool?
    then shelf.(tools := shelf.tools[(e.name, cards(e).version) := e],
        toolRemotes := shelf.toolRemotes + {cards(e).remoteName})
    else shelf.(agents := shelf.agents + {e.name}, agentRemotes := shelf.agentRemotes + {cards(e).remoteName})
  }

  /** One executor after the other, unless its name is known; None when a registration raises. */
  function Registered(shelf: Shelf, cards: Cards, executors: seq<Executor>): Option<Shelf>
    decreases |executors|
  {
    if executors == [] then Some(shelf)
    else if Has(shelf, executors[0]) then Registered(shelf, cards, executors[1..])
    else if Clashes(shelf, cards, executors[0]) then None
    else Registered(Added(shelf, cards, executors[0]), cards, executors[1..])
  }

  class Shelves {
    var tools: map<(string, string), Executor>
    var toolRemotes: set<string>
    var agents: set<string>
    var agentRemotes: set<string>

    function View(): Shelf
      reads this
    {
      Shelf(tools, toolRemotes, agents, agentRemotes)
    }

    constructor (shelf: Shelf)
      ensures View() == shelf
    {
      tools, toolRemotes := shelf.tools, shelf.toolRemotes;
      agents, agentRemotes := shelf.agents, shelf.agentRemotes;
    }

    method Register(cards: Cards, e: Executor) returns (ok: bool)
      modifies this
      ensures ok <==> !Clashes(old(View()), cards, e)
      ensures View() == if ok then Added(old(View()), cards, e) else old(View())
    {
      var card := cards(e);
      if e.Tool? {
        if (e.name, card.version) in tools || card.remoteName in toolRemotes {
          return false;
        }
        tools, toolRemotes := tools[(e.name, card.version) := e], toolRemotes + {card.remoteName};
      } else {
        if e.name in agents || card.remoteName in agentRemotes {
          return false;
        }
        agents, agentRemotes := agents + {e.name}, agentRemotes + {card.remoteName};
      }
      return true;
    }

    /** _register_step_executors, and the tools of the skills after it. */
    method RegisterAll(cards: Cards, executors: seq<Executor>) returns (ok: bool)
      modifies this
      ensures ok <==> Registered(old(View()), cards, executors).Some?
      ensures ok ==> View() == Registered(old(View()), cards, executors).value
    {
      hide Has, Clashes, Added;
      assert executors[0..] == executors;
      for i := 0 to |executors|
        invariant Registered(View(), cards, executors[i..]) == Registered(old(View()), cards, executors)
      {
        assert executors[i..][1..] == executors[i + 1..];
        var known := Knows(executors[i]);
        if !known {
          var added := Register(cards, executors[i]);
          if !added {
            return false;
          }
        }
      }
      return true;
    }

    method Knows(e: Executor) returns (known: bool)
      ensures known <==> Has(View(), e)
    {
      return if e.Tool? then (e.name, VERSION) in tools else e.name in agents;
    }
  }

  lemma {:induction false} RegisteredJoins(shelf: Shelf, cards: Cards, a: seq<Executor>, b: seq<Executor>)
    ensures Registered(shelf, cards, a + b) ==
      match Registered(shelf, cards, a)
      case None => None
      case Some(n) => Registered(n, cards, b)
    decreases |a|
  {
    hide Has, Clashes, Added;
    if a == [] {
      assert a + b == b;
    } else {
      assert (a + b)[1..] == a[1..] + b;
      if !Has(shelf, a[0]) && !Clashes(shelf, cards, a[0]) {
        RegisteredJoins(Added(shelf, cards, a[0]), cards, a[1..], b);
      } else if Has(shelf, a[0]) {
        RegisteredJoins(shelf, cards, a[1..], b);
      }
    }
  }

  /** Registration only adds, and it adds a tool under the default version only if one is among the executors. */
  lemma {:induction false} RegisteredAdds(shelf: Shelf, cards: Cards, executors: seq<Executor>, name: string)
    requires Registered(shelf, cards, executors).Some?
    requires (name, VERSION) !in shelf.tools
    requires forall e | e in executors && e.Tool? && e.name == name :: cards(e).version != VERSION
    ensures
      var n := Registered(shelf, cards, executors).value;
      && (name, VERSION) !in n.tools && (forall key | key in shelf.tools :: key in n.tools)
      && forall e | e in executors && e.Tool? && e.name == name :: (name, cards(e).version) in n.tools
    decreases |executors|
  {
    if executors != [] {
      var e := executors[0];
      assert executors == [e] + executors[1..];
      RegisteredAdds(if Has(shelf, e) then shelf else Added(shelf, cards, e), cards, executors[1..], name);
    }
  }

  /** A tool of another version than the default is looked for under the default one: in two steps of a class
      it is registered twice, which raises, unless a tool of its name has the default version. */
  lemma VersionedToolTwice(shelf: Shelf, cards: Cards, executors: seq<Executor>, i: nat, j: nat)
    requires i < j < |executors| && executors[i] == executors[j] && executors[i].Tool?
    requires (executors[i].name, VERSION) !in shelf.tools
    requires forall e | e in executors[..j] && e.Tool? && e.name == executors[i].name :: cards(e).version != VERSION
    ensures Registered(shelf, cards, executors).None?
  {
    hide Registered;
    var head, tool := executors[..j], executors[j];
    assert head[i] == tool;
    assert executors == head + executors[j..];
    RegisteredJoins(shelf, cards, head, executors[j..]);
    if Registered(shelf, cards, head).Some? {
      RegisteredAdds(shelf, cards, head, tool.name);
      ClashRaises(Registered(shelf, cards, head).value, cards, executors[j..]);
    }
  }

  lemma ClashRaises(shelf: Shelf, cards: Cards, executors: seq<Executor>)
    requires executors != [] && !Has(shelf, executors[0]) && Clashes(shelf, cards, executors[0])
    ensures Registered(shelf, cards, executors).None?
  {
  }

  /** Remote names tell executors of different names apart. */
  ghost predicate Telling(cards: Cards, executors: seq<Executor>) {
    forall e, f | e in executors && f in executors && e.Tool? == f.Tool?
      && cards(e).remoteName == cards(f).remoteName ::
      e.name == f.name
  }

  /** What the registries hold comes from these executors. */
  ghost predicate From(shelf: Shelf, cards: Cards, executors: seq<Executor>) {
    && (forall key | key in shelf.tools :: exists e | e in executors :: e.Tool? && key == (e.name, VERSION))
    && (forall n | n in shelf.agents :: exists e | e in executors :: e.Agent? && n == e.name)
    && (forall r | r in shelf.toolRemotes :: exists e | e in executors ::
         e.Tool? && r == cards(e).remoteName && Has(shelf, e))
    && (forall r | r in shelf.agentRemotes :: exists e | e in executors ::
         e.Agent? && r == cards(e).remoteName && Has(shelf, e))
  }

  lemma AddedFrom(shelf: Shelf, cards: Cards, executors: seq<Executor>, e: Executor)
    requires From(shelf, cards, executors) && e in executors && !Has(shelf, e) && Telling(cards, executors)
    requires e.Tool? ==> cards(e).version == VERSION
    ensures !Clashes(shelf, cards, e) && From(Added(shelf, cards, e), cards, executors)
  {
    var n := Added(shelf, cards, e);
    assert Has(n, e);
    forall x | x in executors && Has(shelf, x) ensures Has(n, x) {
    }
  }

  /** Otherwise registration goes through: with default versions only and telling remote names. */
  lemma {:induction false} DefaultVersionsRegister(shelf: Shelf, cards: Cards, executors: seq<Executor>,
                                                   rest: seq<Executor>)
    requires From(shelf, cards, executors) && Telling(cards, executors) && (forall e | e in rest :: e in executors)
    requires forall e | e in executors && e.Tool? :: cards(e).version == VERSION
    ensures Registered(shelf, cards, rest).Some?
    decreases |rest|
  {
    hide Has, Clashes, Added, From, Telling;
    if rest != [] {
      if Has(shelf, rest[0]) {
        DefaultVersionsRegister(shelf, cards, executors, rest[1..]);
      } else {
        AddedFrom(shelf, cards, executors, rest[0]);
        DefaultVersionsRegister(Added(shelf, cards, rest[0]), cards, executors, rest[1..]);
      }
    }
  }

  // ---- containment ----

  /** The runtime's containment mode and whether it has an adapter for remote executors. */
  datatype ContainmentMode = ContainmentMode(strict: bool, adapter: bool)

  function ExecutorsOf(steps: seq<Step>): seq<Executor> {
    seq(|steps|, i requires 0 <= i < |steps| => steps[i].executor)
  }

  /** An allowlisted tool is registered and, in strict mode, remote. */
  predicate ToolOk(shelf: Shelf, cards: Cards, mode: ContainmentMode, name: string) {
    (name, VERSION) in shelf.tools && (mode.strict ==> cards(shelf.tools[(name, VERSION)]).remote)
  }

  predicate RemoteTool(shelf: Shelf, cards: Cards, name: string) {
    (name, VERSION) in shelf.tools && cards(shelf.tools[(name, VERSION)]).remote
  }

  /** A step's executor, and an agent's allowlist, are where the mode wants them. */
  predicate StepOk(shelf: Shelf, cards: Cards, mode: ContainmentMode, e: Executor) {
    && (mode.strict ==> cards(e).remote)
    && (e.Agent? ==> forall t | t in cards(e).allowed :: ToolOk(shelf, cards, mode, t))
  }

  predicate RemoteStep(shelf: Shelf, cards: Cards, e: Executor) {
    cards(e).remote || (e.Agent? && exists t | t in cards(e).allowed :: RemoteTool(shelf, cards, t))
  }

  /** What the runtime's containment rules ask of a class. */
  predicate Contained(shelf: Shelf, cards: Cards, mode: ContainmentMode, steps: seq<Step>) {
    && (forall s | s in steps :: StepOk(shelf, cards, mode, s.executor))
    && ((exists s | s in steps :: RemoteStep(shelf, cards, s.executor)) ==> mode.adapter)
  }

  /** validate_workflow: nothing is raised exactly when the rules are met. */
  method ValidateWorkflow(shelf: Shelf, cards: Cards, mode: ContainmentMode, steps: seq<Step>) returns (ok: bool)
    ensures ok <==> Contained(shelf, cards, mode, steps)
  {
    hide StepOk, RemoteStep;
    var remote := false;
    for i := 0 to |steps|
      invariant forall s | s in steps[..i] :: StepOk(shelf, cards, mode, s.executor)
      invariant remote <==> exists s | s in steps[..i] :: RemoteStep(shelf, cards, s.executor)
    {
      var s := steps[i];
      assert steps[..i + 1] == steps[..i] + [s];
      assert s in steps;
      var fits, away := CheckStep(shelf, cards, mode, s.executor);
      if !fits {
        return false;
      }
      remote := remote || away;
    }
    assert steps[..|steps|] == steps;
    return !remote || mode.adapter;
  }

  /** The checks on one step. */
  method CheckStep(shelf: Shelf, cards: Cards, mode: ContainmentMode, e: Executor) returns (fits: bool, remote: bool)
    ensures fits <==> StepOk(shelf, cards, mode, e)
    ensures fits ==> (remote <==> RemoteStep(shelf, cards, e))
  {
    remote := cards(e).remote;
    if mode.strict && !remote {
      return false, remote;
    }
    if e.Tool? {
      return true, remote;
    }
    var allowed := cards(e).allowed;
    for i := 0 to |allowed|
      invariant forall t | t in allowed[..i] :: ToolOk(shelf, cards, mode, t)
      invariant remote <==> cards(e).remote || exists t | t in allowed[..i] :: RemoteTool(shelf, cards, t)
    {
      assert allowed[..i + 1] == allowed[..i] + [allowed[i]];
      assert allowed[i] in allowed && allowed[i] in allowed[..i + 1] && forall t | t in allowed[..i] ::
        t in allowed[..i + 1];
      if (allowed[i], VERSION) !in shelf.tools {
        return false, remote;
      }
      var away := cards(shelf.tools[(allowed[i], VERSION)]).remote;
      if mode.strict && !away {
        return false, remote;
      }
      remote := remote || away;
    }
    assert allowed[..|allowed|] == allowed;
    return true, remote;
  }

  /** A class is contained in strict mode exactly when it has an adapter, or no steps, and nothing in it is
      local, allowlisted tools included. Outside strict mode every allowlisted tool has to be registered,
      and without an adapter nothing may be remote. */
  lemma ContainedMeans(shelf: Shelf, cards: Cards, mode: ContainmentMode, steps: seq<Step>)
    ensures mode.strict ==>
      (Contained(shelf, cards, mode, steps) <==>
         && (steps != [] ==> mode.adapter)
         && forall s | s in steps :: cards(s.executor).remote
              && (s.executor.Agent? ==> forall t | t in cards(s.executor).allowed ::
                    (t, "0.0.0") in shelf.tools && cards(shelf.tools[(t, "0.0.0")]).remote))
    ensures !mode.strict && !mode.adapter ==>
      (Contained(shelf, cards, mode, steps) <==>
         forall s | s in steps :: !cards(s.executor).remote
           && (s.executor.Agent? ==> forall t | t in cards(s.executor).allowed ::
                 (t, "0.0.0") in shelf.tools && !cards(shelf.tools[(t, "0.0.0")]).remote))
    ensures !mode.strict && mode.adapter ==>
      (Contained(shelf, cards, mode, steps) <==>
         forall s | s in steps && s.executor.Agent? ::
           forall t | t in cards(s.executor).allowed :: (t, "0.0.0") in shelf.tools)
  {
    if mode.strict && steps != [] {
      assert steps[0] in steps;
    }
  }

  // ---- what registration leaves ----

  /** One executor: a tool that is registered under its name and the default version, or an agent under its
      name, stays as it is; one whose name and version, or remote name, is taken raises; any other is
      added. */
  lemma OneRegisters(shelf: Shelf, cards: Cards, e: Executor)
    ensures
      var card := cards(e);
      var r := Registered(shelf, cards, [e]);
      if e.Tool? then
        if (e.name, "0.0.0") in shelf.tools then r == Some(shelf)
        else if (e.name, card.version) in shelf.tools || card.remoteName in shelf.toolRemotes then r == None
        else r == Some(shelf.(tools := shelf.tools[(e.name, card.version) := e],
                              toolRemotes := shelf.toolRemotes + {card.remoteName}))
      else if e.name in shelf.agents then r == Some(shelf)
      else if card.remoteName in shelf.agentRemotes then r == None
      else r == Some(shelf.(agents := shelf.agents + {e.name}, agentRemotes := shelf.agentRemotes + {card.remoteName}))
  {
    assert [e][1..] == [];
  }

  /** Every tool is registered under its name, with its own or the default version; what is registered was
      registered before, and as it was, or is one of the tools under its own name and version. */
  ghost predicate ToolsHeld(before: map<(string, string), Executor>, after: map<(string, string), Executor>,
                            cards: Cards, executors: seq<Executor>)
  {
    && (forall key | key in before :: key in after && after[key] == before[key])
    && (forall e | e in executors && e.Tool? :: (e.name, "0.0.0") in after || (e.name, cards(e).version) in after)
    && (forall key | key in after && key !in before ::
          after[key] in executors && after[key].Tool? && key == (after[key].name, cards(after[key]).version))
  }

  lemma ToolsHeldMore(shelf: Shelf, cards: Cards, executors: seq<Executor>, after: map<(string, string), Executor>)
    requires executors != []
    requires Has(shelf, executors[0]) || !Clashes(shelf, cards, executors[0])
    requires
      var e := executors[0];
      var mid := if Has(shelf, e) then shelf else Added(shelf, cards, e);
      ToolsHeld(mid.tools, after, cards, executors[1..])
    ensures ToolsHeld(shelf.tools, after, cards, executors)
  {
    var e := executors[0];
    assert executors == [e] + executors[1..];
    forall key | key in shelf.tools ensures key in after && after[key] == shelf.tools[key] {
    }
  }

  /** Registration overwrites nothing, and every executor is registered after it. */
  lemma {:induction false} RegisteredHolds(shelf: Shelf, cards: Cards, executors: seq<Executor>)
    requires Registered(shelf, cards, executors).Some?
    ensures
      var n := Registered(shelf, cards, executors).value;
      ToolsHeld(shelf.tools, n.tools, cards, executors) && n.agents == shelf.agents + AgentsOf(executors)
    decreases |executors|
  {
    hide Clashes, ToolsHeld, Registered;
    if executors == [] {
      NothingRegisters(shelf, cards);
    } else {
      var e := executors[0];
      AgentsSplit(executors);
      FirstRegisters(shelf, cards, executors);
      RegisteredHolds(if Has(shelf, e) then shelf else Added(shelf, cards, e), cards, executors[1..]);
      ToolsHeldMore(shelf, cards, executors, Registered(shelf, cards, executors).value.tools);
    }
  }

  lemma NothingRegisters(shelf: Shelf, cards: Cards)
    ensures Registered(shelf, cards, []) == Some(shelf) && ToolsHeld(shelf.tools, shelf.tools, cards, [])
    ensures AgentsOf([]) == {}
  {
  }

  lemma FirstRegisters(shelf: Shelf, cards: Cards, executors: seq<Executor>)
    requires executors != [] && Registered(shelf, cards, executors).Some?
    ensures
      var e := executors[0];
      && (Has(shelf, e) || !Clashes(shelf, cards, e))
      && Registered(shelf, cards, executors)
         == Registered(if Has(shelf, e) then shelf else Added(shelf, cards, e), cards, executors[1..])
  {
    hide Has, Clashes, Added;
  }

  ghost function AgentsOf(executors: seq<Executor>): set<string> {
    set e | e in executors && e.Agent? :: e.name
  }

  lemma AgentsSplit(executors: seq<Executor>)
    requires executors != []
    ensures AgentsOf(executors)
      == (if executors[0].Agent? then {executors[0].name} else {}) + AgentsOf(executors[1..])
  {
    assert executors == [executors[0]] + executors[1..];
  }
}
