/** From a flow config to an executable workflow class (governai/app/config.py, governai/app/flow.py). */
module FlowCompiler {
  import opened Prelude
  import opened Values
  import opened Workflows
  import opened Containment

  datatype Kind = Then | End | Branch | RouteTo

  /** The fields of TransitionConfigV1 and of TransitionSpec alike. */
  datatype TransitionFields = TransitionFields(
    kind: Kind,
    nextStep: Option<string>,
    router: Option<string>,
    mapping: Option<map<string, string>>,
    allowed: Option<seq<string>>)

  predicate Truthy(s: Option<string>) {
    s.Some? && s.value != ""
  }

  /** What the model validator accepts. */
  predicate WellShaped(t: TransitionFields) {
    match t.kind
    case Then => Truthy(t.nextStep)
    case End => true
    case Branch => Truthy(t.router) && t.mapping.Some? && t.mapping.value != map[]
    case RouteTo => t.allowed.Some? && t.allowed.value != []
  }

  /** A transition is accepted when it names somewhere to go, and a branch also what to decide by; the end
      needs nothing. */
  lemma ShapeAccepted(t: TransitionFields)
    ensures t.kind.Then? ==> (WellShaped(t) <==> exists n :: n != "" && t.nextStep == Some(n))
    ensures t.kind.End? ==> WellShaped(t)
    ensures t.kind.Branch? ==>
      (WellShaped(t) <==>
         && (exists r :: r != "" && t.router == Some(r))
         && t.mapping.Some? && exists k :: k in t.mapping.value)
    ensures t.kind.RouteTo? ==> (WellShaped(t) <==> t.allowed.Some? && exists n :: n in t.allowed.value)
  {
    match t.kind
    case Then =>
    case End =>
    case Branch =>
      if t.mapping.Some? && t.mapping.value != map[] {
        assert exists k :: k in t.mapping.value;
      }
      assert t.router.Some? ==> t.router == Some(t.router.value);
    case RouteTo =>
      if t.allowed.Some? && t.allowed.value != [] {
        assert t.allowed.value[0] in t.allowed.value;
      }
  }

  /** The fields after validation: targets normalised, fields of the other kinds cleared. */
  function Shaped(t: TransitionFields): TransitionFields
    requires WellShaped(t)
  {
    match t.kind
    case Then => TransitionFields(Then, Some(NormalizeStepRef(t.nextStep.value)), None, None, None)
    case End => TransitionFields(End, Some(END_STEP), None, None, None)
    case Branch =>
      var n := Normalized(RuleBasedTransition(t.router.value, t.mapping.value));
      TransitionFields(Branch, None, t.router, Some(n.mapping), None)
    case RouteTo =>
      var n := Normalized(BoundedRoutingTransition(t.allowed.value));
      TransitionFields(RouteTo, None, None, None, Some(n.allowed))
  }

  /** The transition as it is written. */
  function StatedTransition(t: TransitionFields): Transition
    requires WellShaped(t)
  {
    match t.kind
    case Then => StrictTransition(t.nextStep.value)
    case End => StrictTransition(END_STEP)
    case Branch => RuleBasedTransition(t.router.value, t.mapping.value)
    case RouteTo => BoundedRoutingTransition(t.allowed.value)
  }

  /** What validation leaves of accepted fields: in the place of each target what it denotes, and nothing
      of the other kinds. */
  ghost predicate ValidatedFrom(raw: TransitionFields, t: TransitionFields) {
    && t.kind == raw.kind
    && (raw.kind.Then? || raw.kind.End? ==> t.router == None && t.mapping == None && t.allowed == None)
    && (raw.kind.Branch? ==> t.nextStep == None && t.allowed == None)
    && (raw.kind.RouteTo? ==> t.nextStep == None && t.router == None && t.mapping == None)
    && WellShaped(raw) && WellShaped(t) && Stands(StatedTransition(raw), StatedTransition(t))
    && (raw.kind.End? ==> t.nextStep == Some("__END__"))
  }

  lemma ShapedDenotes(t: TransitionFields)
    requires WellShaped(t)
    ensures ValidatedFrom(t, Shaped(t))
  {
    hide NormalizeStepRef, Denoted;
    NormalizedStands(StatedTransition(t));
    ShapedIdempotent(t);
    CasingsOfEnd("__END__");
    match t.kind
    case Then =>
      CasingsOfEnd(t.nextStep.value);
    case _ =>
  }

  /** Validation is a projection: a validated transition is accepted again and unchanged. */
  lemma ShapedIdempotent(t: TransitionFields)
    requires WellShaped(t)
    ensures WellShaped(Shaped(t)) && Shaped(Shaped(t)) == Shaped(t)
  {
    match t.kind
    case Then =>
    case End =>
    case Branch =>
      var m := Shaped(t).mapping.value;
      assert m.Keys == t.mapping.value.Keys;
      var k :| k in t.mapping.value;
      assert k in m;
      assert Normalized(RuleBasedTransition(t.router.value, m)).mapping == m;
    case RouteTo =>
      var a := Shaped(t).allowed.value;
      assert Normalized(BoundedRoutingTransition(a)).allowed == a;
  }

  /** TransitionConfigV1: `_validate_shape` rewrites the model's own fields. */
  class TransitionConfig {
    const kind: Kind
    var nextStep: Option<string>
    var router: Option<string>
    var mapping: Option<map<string, string>>
    var allowed: Option<seq<string>>

    constructor (t: TransitionFields)
      ensures Fields() == t
    {
      kind := t.kind;
      nextStep := t.nextStep;
      router := t.router;
      mapping := t.mapping;
      allowed := t.allowed;
    }

    function Fields(): TransitionFields
      reads this
    {
      TransitionFields(kind, nextStep, router, mapping, allowed)
    }

    method ValidateShape() returns (ok: bool)
      modifies this
      ensures ok <==> WellShaped(old(Fields()))
      ensures Fields() == if ok then Shaped(old(Fields())) else old(Fields())
      ensures ok ==> ValidatedFrom(old(Fields()), Fields())
    {
      if WellShaped(Fields()) {
        ShapedDenotes(Fields());
      }
      ok := true;
      match kind
      case Then =>
        if nextStep.None? || nextStep.value == "" {
          return false;
        }
        nextStep := Some(NormalizeStepRef(nextStep.value));
        router, mapping, allowed := None, None, None;
      case End =>
        nextStep := Some(END_STEP);
        router, mapping, allowed := None, None, None;
      case Branch =>
        if router.None? || router.value == "" || mapping.None? || mapping.value == map[] {
          return false;
        }
        nextStep, allowed := None, None;
        mapping := Some(map k | k in mapping.value :: NormalizeStepRef(mapping.value[k]));
      case RouteTo =>
        if allowed.None? || allowed.value == [] {
          return false;
        }
        nextStep, router, mapping := None, None, None;
        var a := allowed.value;
        allowed := Some(seq(|a|, i requires 0 <= i < |a| => NormalizeStepRef(a[i])));
    }
  }

  // ---- configs ----

  datatype StepConfig = StepConfig(
    name: string,
    tool: Option<string>,
    agent: Option<string>,
    requiredArtifacts: seq<string>,
    emittedArtifact: Option<string>,
    approvalOverride: Option<bool>,
    transition: TransitionFields)

  datatype FlowConfig = FlowConfig(steps: seq<StepConfig>, entryStep: Option<string>)

  function ConfigNames(steps: seq<StepConfig>): set<string> {
    set s | s in steps :: s.name
  }

  /** Parsed by the models: each transition validated, exactly one of tool and agent. */
  ghost predicate Parsed(config: FlowConfig) {
    forall s | s in config.steps ::
      && WellShaped(s.transition) && s.transition == Shaped(s.transition)
      && (s.tool.None? <==> s.agent.Some?)
  }

  /** Every target of a validated transition, END_STEP included. */
  function ConfigTargets(t: TransitionFields): set<string> {
    match t.kind
    case Then => if t.nextStep.Some? then {t.nextStep.value} else {}
    case End => {}
    case Branch => if t.mapping.Some? then t.mapping.value.Values else {}
    case RouteTo => if t.allowed.Some? then set n | n in t.allowed.value else {}
  }

  ghost predicate DistinctConfigs(steps: seq<StepConfig>) {
    forall i, j | 0 <= i < j < |steps| :: steps[i].name != steps[j].name
  }

  /** Every target of the transition is a known name or the end. */
  ghost predicate Leads(t: TransitionFields, known: set<string>) {
    forall target | target in ConfigTargets(t) :: target == END_STEP || target in known
  }

  ghost predicate TargetsKnown(steps: seq<StepConfig>) {
    forall s | s in steps :: Leads(s.transition, ConfigNames(steps))
  }

  /** What validate_flow_config promises. */
  ghost predicate Valid(config: FlowConfig) {
    && DistinctConfigs(config.steps)
    && (config.entryStep.Some? ==> config.entryStep.value in ConfigNames(config.steps))
    && TargetsKnown(config.steps)
  }

  datatype ConfigError =
    | DuplicateStepName(name: string)
    | UnknownEntryStep(name: string)
    | InvalidTransition(name: string)
    | UnknownTool(name: string)
    | UnknownAgent(name: string)
    | BadStep(name: string)
    | NotAWorkflow(definition: DefinitionError)
    | NotAnAttribute(name: string)
    | NotAdmitted

  ghost predicate Repeated(steps: seq<StepConfig>, name: string) {
    exists i, j | 0 <= i < j < |steps| :: steps[i].name == name == steps[j].name
  }

  ghost predicate Dangling(steps: seq<StepConfig>, name: string) {
    exists s | s in steps :: s.name == name && !Leads(s.transition, ConfigNames(steps))
  }

  lemma OneMoreName(steps: seq<StepConfig>, i: nat)
    requires i < |steps| && DistinctConfigs(steps[..i])
    ensures ConfigNames(steps[..i + 1]) == ConfigNames(steps[..i]) + {steps[i].name}
    ensures steps[i].name in ConfigNames(steps[..i]) ==> Repeated(steps, steps[i].name) && !DistinctConfigs(steps)
    ensures steps[i].name !in ConfigNames(steps[..i]) ==> DistinctConfigs(steps[..i + 1])
  {
    assert steps[..i + 1] == steps[..i] + [steps[i]];
    if steps[i].name in ConfigNames(steps[..i]) {
      var s :| s in steps[..i] && s.name == steps[i].name;
      var k :| 0 <= k < i && steps[..i][k] == s;
      assert steps[k].name == steps[i].name;
    } else {
      forall k | 0 <= k < i ensures steps[k].name != steps[i].name {
        assert steps[k] in steps[..i];
      }
    }
  }

  /** The targets of one transition, in whatever order the set yields them. */
  method AnyDangling(t: TransitionFields, known: set<string>) returns (found: bool)
    ensures found <==> !Leads(t, known)
  {
    hide ConfigTargets;
    var unchecked := ConfigTargets(t);
    while unchecked != {}
      invariant unchecked <= ConfigTargets(t)
      invariant forall target | target in ConfigTargets(t) - unchecked :: target == END_STEP || target in known
    {
      var target :| target in unchecked;
      if target != END_STEP && target !in known {
        return true;
      }
      unchecked := unchecked - {target};
    }
    return false;
  }

  /** _validate_transition_targets: nothing is raised exactly when the config is valid; each error
      names a step that causes it. */
  method ValidateTransitionTargets(config: FlowConfig) returns (error: Option<ConfigError>)
    requires Parsed(config)
    ensures error.None? <==> Valid(config)
    ensures error.Some? ==> match error.value
      case DuplicateStepName(n) => Repeated(config.steps, n)
      case UnknownEntryStep(n) =>
        DistinctConfigs(config.steps) && config.entryStep == Some(n) && n !in ConfigNames(config.steps)
      case InvalidTransition(n) => DistinctConfigs(config.steps) && Dangling(config.steps, n)
      case _ => false
  {
    hide Parsed, DistinctConfigs, Repeated, Leads, ConfigNames;
    var steps := config.steps;
    var seen: set<string> := {};
    NoNames();
    for i := 0 to |steps|
      invariant seen == ConfigNames(steps[..i]) && DistinctConfigs(steps[..i])
    {
      OneMoreName(steps, i);
      if steps[i].name in seen {
        return Some(DuplicateStepName(steps[i].name));
      }
      seen := seen + {steps[i].name};
    }
    assert steps[..|steps|] == steps;
    if config.entryStep.Some? && config.entryStep.value !in seen {
      return Some(UnknownEntryStep(config.entryStep.value));
    }
    for i := 0 to |steps|
      invariant forall k | 0 <= k < i :: Leads(steps[k].transition, seen)
    {
      var dangling := AnyDangling(steps[i].transition, seen);
      if dangling {
        return Some(InvalidTransition(steps[i].name));
      }
    }
    return None;
  }

  lemma NoNames()
    ensures ConfigNames([]) == {} && DistinctConfigs([])
  {
  }

  // ---- compilation ----

  /** A spec step: the executor is already resolved to an object. */
  datatype StepSpec = StepSpec(
    name: string,
    executor: Executor,
    requiredArtifacts: seq<string>,
    emittedArtifact: Option<string>,
    approvalOverride: Option<bool>,
    transition: TransitionFields)

  /** Tool and agent registries by name. */
  datatype Registries = Registries(tools: map<string, Executor>, agents: map<string, Executor>)

  ghost predicate Resolved(config: FlowConfig, reg: Registries) {
    && (forall n | n in reg.tools :: reg.tools[n].Tool?)
    && (forall n | n in reg.agents :: reg.agents[n].Agent?)
    && forall s | s in config.steps ::
      && (s.tool.Some? ==> s.tool.value in reg.tools)
      && (s.agent.Some? ==> s.agent.value in reg.agents)
  }

  function SpecTransition(t: TransitionFields): TransitionFields {
    match t.kind
    case Then => TransitionFields(Then, t.nextStep, None, None, None)
    case End => TransitionFields(End, None, None, None, None)
    case Branch => TransitionFields(Branch, None, t.router, t.mapping, None)
    case RouteTo => TransitionFields(RouteTo, None, None, None, t.allowed)
  }

  /** The executor a config step names. */
  function ResolvedExecutor(s: StepConfig, reg: Registries): Executor
    requires s.tool.Some? ==> s.tool.value in reg.tools
    requires s.tool.None? ==> s.agent.Some? && s.agent.value in reg.agents
  {
    if s.tool.Some? then reg.tools[s.tool.value] else reg.agents[s.agent.value]
  }

  ghost predicate SpecOf(spec: StepSpec, s: StepConfig, reg: Registries)
    requires s.tool.Some? ==> s.tool.value in reg.tools
    requires s.tool.None? ==> s.agent.Some? && s.agent.value in reg.agents
  {
    spec == StepSpec(s.name, ResolvedExecutor(s, reg), s.requiredArtifacts, s.emittedArtifact,
                     s.approvalOverride, SpecTransition(s.transition))
  }

  /** flow_config_to_spec: validate, then resolve every executor name. */
  method ConfigToSpec(config: FlowConfig, reg: Registries) returns (r: Result<seq<StepSpec>, ConfigError>)
    requires Parsed(config)
    ensures !Valid(config) ==> r.Failure?
    ensures Valid(config) && Resolved(config, reg) ==> r.Success?
    ensures r.Success? ==> |r.value| == |config.steps| && forall i | 0 <= i < |config.steps| ::
      && (config.steps[i].tool.Some? ==> config.steps[i].tool.value in reg.tools)
      && (config.steps[i].tool.None? ==> config.steps[i].agent.Some? && config.steps[i].agent.value in reg.agents)
      && SpecOf(r.value[i], config.steps[i], reg)
  {
    var error := ValidateTransitionTargets(config);
    if error.Some? {
      return Failure(error.value);
    }
    var specs: seq<StepSpec> := [];
    for i := 0 to |config.steps|
      invariant |specs| == i
      invariant forall k | 0 <= k < i ::
        && (config.steps[k].tool.Some? ==> config.steps[k].tool.value in reg.tools)
        && (config.steps[k].tool.None? ==> config.steps[k].agent.Some? && config.steps[k].agent.value in reg.agents)
        && SpecOf(specs[k], config.steps[k], reg)
    {
      var s := config.steps[i];
      assert s in config.steps;
      if s.tool.Some? && s.tool.value !in reg.tools {
        return Failure(UnknownTool(s.tool.value));
      }
      if s.agent.Some? && s.agent.value !in reg.agents {
        return Failure(UnknownAgent(s.agent.value));
      }
      specs := specs + [StepSpec(s.name, ResolvedExecutor(s, reg), s.requiredArtifacts, s.emittedArtifact,
                                 s.approvalOverride, SpecTransition(s.transition))];
    }
    return Success(specs);
  }

  /** The transition the builders set for a spec transition. */
  function BuiltTransition(t: TransitionFields): Option<Transition> {
    match t.kind
    case Then => if Truthy(t.nextStep) then Some(Normalized(StrictTransition(t.nextStep.value))) else None
    case End => Some(StrictTransition(END_STEP))
    case Branch =>
      if Truthy(t.router) && t.mapping.Some? && t.mapping.value != map[]
      then Some(Normalized(RuleBasedTransition(t.router.value, t.mapping.value))) else None
    case RouteTo =>
      if t.allowed.Some? && t.allowed.value != []
      then Some(Normalized(BoundedRoutingTransition(t.allowed.value))) else None
  }

  /** The builders accept what the config's own validator accepts, and set what it states. */
  lemma BuildersAgree(t: TransitionFields)
    ensures BuiltTransition(t).Some? <==> WellShaped(t)
    ensures WellShaped(t) ==> Stands(StatedTransition(t), BuiltTransition(t).value)
  {
    hide NormalizeStepRef, Denoted;
    if WellShaped(t) {
      NormalizedStands(StatedTransition(t));
      CasingsOfEnd("__END__");
    }
  }

  /** _apply_transition: case dispatch onto the builders. */
  method ApplyTransition(definition: StepDefinition, t: TransitionFields) returns (ok: bool)
    modifies definition
    ensures ok <==> BuiltTransition(t).Some?
    ensures ok ==> definition.Copy() == old(definition.Copy()).(
      transition := BuiltTransition(t), mode := Some(ModeOf(BuiltTransition(t).value)))
  {
    ok := true;
    match t.kind
    case Then =>
      if !Truthy(t.nextStep) {
        return false;
      }
      definition.Then(t.nextStep.value);
    case End =>
      definition.ThenEnd();
    case Branch =>
      if !Truthy(t.router) || t.mapping.None? || t.mapping.value == map[] {
        return false;
      }
      definition.Branch(t.router.value, t.mapping.value);
    case RouteTo =>
      if t.allowed.None? || t.allowed.value == [] {
        return false;
      }
      definition.RouteTo(t.allowed.value);
  }

  function CompiledStep(s: StepSpec): Step
    requires BuiltTransition(s.transition).Some?
  {
    Step(s.name, s.executor, s.requiredArtifacts, s.emittedArtifact, s.approvalOverride,
         BuiltTransition(s.transition), Some(ModeOf(BuiltTransition(s.transition).value)))
  }

  /** Python dict assignment in a class namespace. */
  function AttrPut(attrs: seq<(string, Attr)>, key: string, a: Attr): seq<(string, Attr)> {
    if exists i | 0 <= i < |attrs| :: attrs[i].0 == key
    then seq(|attrs|, i requires 0 <= i < |attrs| => if attrs[i].0 == key then (key, a) else attrs[i])
    else attrs + [(key, a)]
  }

  /** The namespace governed_flow builds from the steps alone, when their names are distinct. */
  function StepAttrs(specs: seq<StepSpec>): seq<(string, Attr)>
    requires forall s | s in specs :: BuiltTransition(s.transition).Some?
  {
    seq(|specs|, i requires 0 <= i < |specs| => (specs[i].name, StepAttr(CompiledStep(specs[i]))))
  }

  /** The namespace governed_flow passes on. */
  function Namespace(specs: seq<StepSpec>, entryStep: Option<string>): seq<(string, Attr)>
    requires forall s | s in specs :: BuiltTransition(s.transition).Some?
  {
    if entryStep.Some? then AttrPut(StepAttrs(specs), "entry_step", NameAttr(entryStep.value)) else StepAttrs(specs)
  }

  ghost predicate DistinctSpecs(specs: seq<StepSpec>) {
    forall i, j | 0 <= i < j < |specs| :: specs[i].name != specs[j].name
  }

  /** What decides about a class besides its graph: the attribute names under which the interpreter's own
      class and instance protocol cannot do with a step definition, what executors say of themselves, what
      the registries hold, the tools of the skills, and the runtime's containment mode. */
  datatype Host = Host(reserved: set<string>, cards: Cards, shelf: Shelf, skillTools: seq<Executor>,
      mode: ContainmentMode)

  /** An attribute that the class inherits from Workflow: its namespace does not bind it. */
  predicate Inherited(attrs: seq<(string, Attr)>, name: string) {
    Lookup(attrs, name).NoneAttr?
  }

  /** The executors go into the registries and meet the containment rules. */
  predicate Admits(host: Host, steps: seq<Step>) {
    var shelf := Registered(host.shelf, host.cards, ExecutorsOf(steps) + host.skillTools);
    shelf.Some? && Contained(shelf.value, host.cards, host.mode, steps)
  }

  /** Every attribute looked up on the way to an instance is what it has to be. */
  predicate Instantiable(attrs: seq<(string, Attr)>, steps: seq<Step>, host: Host) {
    && (forall n | n in host.reserved :: !Lookup(attrs, n).StepAttr?)
    && Inherited(attrs, "_register_step_executors") && Inherited(attrs, "steps")
    && Admits(host, steps)
  }

  /** Making the class and an instance of it: the interpreter reads its own names; __init__ calls
      self._register_step_executors(), registers the tools of the skills, and has the runtime validate the
      workflow, which goes through self.steps. */
  method Instantiate(attrs: seq<(string, Attr)>, wf: Workflow, host: Host) returns (error: Option<ConfigError>)
    ensures error.None? <==> Instantiable(attrs, wf.steps, host)
  {
    hide Lookup, Contained, Registered;
    var protocol := host.reserved;
    while protocol != {}
      invariant protocol <= host.reserved
      invariant forall n | n in host.reserved - protocol :: !Lookup(attrs, n).StepAttr?
    {
      var n :| n in protocol;
      if Lookup(attrs, n).StepAttr? {
        return Some(NotAnAttribute(n));
      }
      protocol := protocol - {n};
    }
    if !Lookup(attrs, "_register_step_executors").NoneAttr? {
      return Some(NotAnAttribute("_register_step_executors"));
    }
    var registries := new Shelves(host.shelf);
    var registered := registries.RegisterAll(host.cards, ExecutorsOf(wf.steps) + host.skillTools);
    if !registered {
      return Some(NotAdmitted);
    }
    if !Lookup(attrs, "steps").NoneAttr? {
      return Some(NotAnAttribute("steps"));
    }
    var contained := ValidateWorkflow(registries.View(), host.cards, host.mode, wf.steps);
    return if contained then None else Some(NotAdmitted);
  }

  /** governed_flow: fill the class namespace, let the metaclass check the graph, make the instance. */
  method GovernedFlow(specs: seq<StepSpec>, entryStep: Option<string>, host: Host)
    returns (r: Result<Workflow, ConfigError>)
    requires DistinctSpecs(specs)
    ensures (exists s | s in specs :: BuiltTransition(s.transition).None?) ==> r.Failure?
    ensures (forall s | s in specs :: BuiltTransition(s.transition).Some?) ==>
      var attrs := Namespace(specs, entryStep);
      var steps := Declared(attrs);
      && (steps == [] ==>
            (r.Success? <==> Instantiable(attrs, [], host)) && (r.Success? ==> r.value == Workflow([], None)))
      && (steps != [] ==>
            && (r.Success? <==>
                  Distinct(steps) && Closed(steps) && EntryChoice(attrs, steps).Some?
                    && Instantiable(attrs, steps, host))
            && (r.Success? ==> r.value == Workflow(steps, EntryChoice(attrs, steps))))
  {
    var attrs: seq<(string, Attr)> := [];
    for i := 0 to |specs|
      invariant forall s | s in specs[..i] :: BuiltTransition(s.transition).Some?
      invariant attrs == StepAttrs(specs[..i])
    {
      var s := specs[i];
      assert s in specs;
      var definition := new StepDefinition(s.name, s.executor, s.requiredArtifacts, s.emittedArtifact,
          s.approvalOverride);
      var ok := ApplyTransition(definition, s.transition);
      if !ok {
        return Failure(BadStep(s.name));
      }
      assert definition.Copy() == CompiledStep(s);
      assert forall k | 0 <= k < i :: attrs[k].0 == specs[k].name;
      assert specs[..i + 1] == specs[..i] + [s];
      attrs := AttrPut(attrs, s.name, StepAttr(definition.Copy()));
      assert attrs == StepAttrs(specs[..i + 1]);
    }
    assert specs[..|specs|] == specs;
    if entryStep.Some? {
      attrs := AttrPut(attrs, "entry_step", NameAttr(entryStep.value));
    }
    var made := MakeClass([], attrs);
    assert [] + Declared(attrs) == Declared(attrs);
    match made
    case Success(wf) =>
      var error := Instantiate(attrs, wf, host);
      return if error.Some? then Failure(error.value) else Success(wf);
    case Failure(e) => return Failure(NotAWorkflow(e));
  }

  // ---- the compiled class means what the config says ----

  function FindConfig(steps: seq<StepConfig>, name: string): Option<StepConfig> {
    if steps == [] then None
    else if steps[0].name == name then Some(steps[0])
    else FindConfig(steps[1..], name)
  }

  /** Where a config leads once a target is chosen: known target, and the handoff names its agent. */
  function Land(config: FlowConfig, reg: Registries, next: string,
                handoff: Option<string>): Result<string, RouteError>
  {
    var target := FindConfig(config.steps, next);
    if handoff.None? then
      if next == END_STEP || target.Some? then Success(next) else Failure(UnknownTargetStep)
    else if next == END_STEP then Failure(HandoffAtEnd)
    else if target.None? then Failure(UnknownTargetStep)
    else if target.value.tool.None? && target.value.agent.Some? && target.value.agent.value in reg.agents
            && reg.agents[target.value.agent.value].name == handoff.value
      then Success(next)
    else Failure(HandoffMismatch)
  }

  /** Direct interpretation of a config step's transition on an output. */
  function Interpret(config: FlowConfig, reg: Registries, t: TransitionFields, output: Value,
                     handoff: Option<string>, str: Value -> string): Result<string, RouteError>
    requires WellShaped(t)
  {
    match t.kind
    case Then => Land(config, reg, t.nextStep.value, handoff)
    case End => Land(config, reg, END_STEP, handoff)
    case Branch =>
      if !output.Dict? then Failure(NotADict)
      else if t.router.value !in output.entries || output.entries[t.router.value] == Null
        then Failure(MissingRouterField)
      else if str(output.entries[t.router.value]) !in t.mapping.value then Failure(NoBranch)
      else Land(config, reg, t.mapping.value[str(output.entries[t.router.value])], handoff)
    case RouteTo =>
      if !output.Dict? then Failure(NotADict)
      else if "next_step" !in output.entries || !output.entries["next_step"].Text? then Failure(NoProposal)
      else if Denoted(output.entries["next_step"].text) !in t.allowed.value then Failure(IllegalTarget)
      else Land(config, reg, Denoted(output.entries["next_step"].text), handoff)
  }

  ghost predicate SpecsOf(specs: seq<StepSpec>, config: FlowConfig, reg: Registries)
    requires Parsed(config) && Resolved(config, reg)
  {
    |specs| == |config.steps| && forall i | 0 <= i < |specs| ::
      config.steps[i] in config.steps && SpecOf(specs[i], config.steps[i], reg)
  }

  /** Same steps in the same order, same entry. */
  ghost predicate SameShape(wf: Workflow, config: FlowConfig) {
    && |wf.steps| == |config.steps|
    && (forall i | 0 <= i < |wf.steps| :: wf.steps[i].name == config.steps[i].name)
    && (config.steps != [] ==>
         wf.entry == Some(if config.entryStep.Some? then config.entryStep.value else config.steps[0].name))
  }

  lemma {:induction false} DeclaredInOrder(specs: seq<StepSpec>)
    requires forall s | s in specs :: BuiltTransition(s.transition).Some?
    requires DistinctSpecs(specs)
    ensures var steps := Declared(StepAttrs(specs));
      |steps| == |specs| && forall i | 0 <= i < |specs| :: steps[i] == CompiledStep(specs[i])
  {
    hide BuiltTransition, CompiledStep, StepAttrs, Declared, DictPut;
    if specs == [] {
      NothingDeclared(specs);
    } else {
      var n := |specs| - 1;
      var rest, s := specs[..n], CompiledStep(specs[n]);
      assert forall x | x in rest :: x in specs;
      DeclaredInOrder(rest);
      StepAttrsSnoc(specs);
      DeclaredSnoc(StepAttrs(specs), s);
      var steps := Declared(StepAttrs(rest));
      forall i | 0 <= i < |steps| ensures steps[i].name != s.name {
        CompiledName(specs[i]);
        CompiledName(specs[n]);
      }
      NewKey(steps, s);
    }
  }

  lemma NothingDeclared(specs: seq<StepSpec>)
    requires specs == []
    ensures Declared(StepAttrs(specs)) == []
  {
  }

  lemma DeclaredSnoc(attrs: seq<(string, Attr)>, s: Step)
    requires attrs != [] && attrs[|attrs| - 1].1 == StepAttr(s)
    ensures Declared(attrs) == DictPut(Declared(attrs[..|attrs| - 1]), s)
  {
  }

  lemma StepAttrsSnoc(specs: seq<StepSpec>)
    requires specs != [] && forall s | s in specs :: BuiltTransition(s.transition).Some?
    ensures
      var n := |specs| - 1;
      && (forall s | s in specs[..n] :: BuiltTransition(s.transition).Some?)
      && |StepAttrs(specs)| == |specs| && StepAttrs(specs)[..n] == StepAttrs(specs[..n])
      && StepAttrs(specs)[n] == (specs[n].name, StepAttr(CompiledStep(specs[n])))
  {
    hide BuiltTransition, CompiledStep;
    assert forall s | s in specs[..|specs| - 1] :: s in specs;
  }

  lemma CompiledName(s: StepSpec)
    requires BuiltTransition(s.transition).Some?
    ensures CompiledStep(s).name == s.name
  {
    hide BuiltTransition;
  }

  lemma NewKey(steps: seq<Step>, s: Step)
    requires forall i | 0 <= i < |steps| :: steps[i].name != s.name
    ensures DictPut(steps, s) == steps + [s]
  {
  }

  /** Only step attributes declare steps. */
  lemma {:induction false} DeclaredFrom(attrs: seq<(string, Attr)>)
    ensures forall s | s in Declared(attrs) :: exists i | 0 <= i < |attrs| :: attrs[i].1 == StepAttr(s)
  {
    if attrs != [] {
      var n := |attrs| - 1;
      DeclaredFrom(attrs[..n]);
      forall s | s in Declared(attrs) ensures exists i | 0 <= i < |attrs| :: attrs[i].1 == StepAttr(s) {
        if attrs[n].1 != StepAttr(s) {
          assert s in Declared(attrs[..n]);
          var i :| 0 <= i < n && attrs[..n][i].1 == StepAttr(s);
          assert attrs[i].1 == StepAttr(s);
        }
      }
    }
  }

  lemma {:induction false} LookupAt(attrs: seq<(string, Attr)>, key: string, i: nat)
    requires i < |attrs| && attrs[i].0 == key
    requires forall k | 0 <= k < |attrs| && k != i :: attrs[k].0 != key
    ensures Lookup(attrs, key) == attrs[i].1
  {
    if i < |attrs| - 1 {
      LookupAt(attrs[..|attrs| - 1], key, i);
    }
  }

  lemma {:induction false} LookupAbsent(attrs: seq<(string, Attr)>, key: string)
    requires forall k | 0 <= k < |attrs| :: attrs[k].0 != key
    ensures Lookup(attrs, key) == NoneAttr
  {
    if attrs != [] {
      LookupAbsent(attrs[..|attrs| - 1], key);
    }
  }

  /** Every validated transition is built as it stands. */
  lemma BuiltAsStated(t: TransitionFields)
    requires WellShaped(t) && t == Shaped(t)
    ensures BuiltTransition(SpecTransition(t)) == Some(StatedTransition(t))
  {
    ShapedIdempotent(t);
  }

  /** The steps a compiled class has to have. */
  ghost predicate CompiledFrom(steps: seq<Step>, config: FlowConfig, reg: Registries)
    requires Parsed(config) && Resolved(config, reg)
  {
    |steps| == |config.steps| && forall i | 0 <= i < |steps| ::
      var s := config.steps[i];
      s in config.steps && steps[i] == Step(s.name, ResolvedExecutor(s, reg), s.requiredArtifacts, s.emittedArtifact,
        s.approvalOverride, Some(StatedTransition(s.transition)), Some(ModeOf(StatedTransition(s.transition))))
  }

  lemma SpecsBuilt(config: FlowConfig, reg: Registries, specs: seq<StepSpec>)
    requires Parsed(config) && Valid(config) && Resolved(config, reg) && SpecsOf(specs, config, reg)
    ensures DistinctSpecs(specs)
    ensures forall s | s in specs :: BuiltTransition(s.transition).Some?
  {
    forall s | s in specs ensures BuiltTransition(s.transition).Some? {
      var i :| 0 <= i < |specs| && specs[i] == s;
      BuiltAsStated(config.steps[i].transition);
    }
  }

  /** The metaclass sees exactly the config's steps, in order, and its entry. */
  lemma CompiledSteps(config: FlowConfig, reg: Registries, specs: seq<StepSpec>)
    requires Parsed(config) && Valid(config) && Resolved(config, reg) && SpecsOf(specs, config, reg)
    requires "entry_step" !in ConfigNames(config.steps)
    ensures DistinctSpecs(specs) && forall s | s in specs :: BuiltTransition(s.transition).Some?
    ensures
      var attrs := Namespace(specs, config.entryStep);
      && CompiledFrom(Declared(attrs), config, reg)
      && Lookup(attrs, "entry_step") == if config.entryStep.Some? then NameAttr(config.entryStep.value) else NoneAttr
  {
    SpecsBuilt(config, reg, specs);
    DeclaredInOrder(specs);
    var base := StepAttrs(specs);
    var attrs := Namespace(specs, config.entryStep);
    forall i | 0 <= i < |base| ensures base[i].0 != "entry_step" {
      assert config.steps[i] in config.steps;
    }
    if config.entryStep.Some? {
      assert attrs == base + [("entry_step", NameAttr(config.entryStep.value))];
      assert attrs[..|attrs| - 1] == base;
    } else {
      LookupAbsent(base, "entry_step");
    }
    var steps := Declared(base);
    forall i | 0 <= i < |steps| ensures steps[i].transition == Some(StatedTransition(config.steps[i].transition)) {
      BuiltAsStated(config.steps[i].transition);
    }
  }

  lemma CompiledNames(steps: seq<Step>, config: FlowConfig, reg: Registries)
    requires Parsed(config) && Resolved(config, reg) && CompiledFrom(steps, config, reg)
    ensures Names(steps) == ConfigNames(config.steps)
  {
    forall n | n in ConfigNames(config.steps) ensures n in Names(steps) {
      var i :| 0 <= i < |config.steps| && config.steps[i].name == n;
      assert steps[i] in steps;
    }
  }

  /** A valid config compiles to a class the metaclass accepts. */
  lemma CompiledAccepted(steps: seq<Step>, entry: string, config: FlowConfig, reg: Registries)
    requires Parsed(config) && Valid(config) && Resolved(config, reg) && CompiledFrom(steps, config, reg)
    requires config.steps != []
    requires entry == if config.entryStep.Some? then config.entryStep.value else config.steps[0].name
    ensures Accepted(Workflow(steps, Some(entry)))
  {
    hide Coherent, Targets, ConfigTargets, ConfigNames, Names, ModeOf;
    CompiledNames(steps, config, reg);
    EntryNamed(config);
    forall s | s in steps
      ensures s.transition.Some? && s.mode.Some? && Coherent(s)
      ensures forall t | t in Targets(s.transition.value) :: t == END_STEP || t in Names(steps)
    {
      var i :| 0 <= i < |steps| && steps[i] == s;
      assert config.steps[i] in config.steps;
      StatedFits(config.steps[i].transition, s);
    }
  }

  lemma EntryNamed(config: FlowConfig)
    requires config.steps != []
    ensures config.steps[0].name in ConfigNames(config.steps)
  {
    assert config.steps[0] in config.steps;
  }

  /** A stated transition fits its mode and leads where the config's transition does. */
  lemma StatedFits(t: TransitionFields, s: Step)
    requires WellShaped(t) && t == Shaped(t)
    requires s.transition == Some(StatedTransition(t)) && s.mode == Some(ModeOf(StatedTransition(t)))
    ensures Coherent(s) && Targets(s.transition.value) <= ConfigTargets(t) + {END_STEP}
  {
  }

  lemma {:induction false} FindAgrees(config: FlowConfig, reg: Registries, steps: seq<Step>, configs: seq<StepConfig>,
                                      name: string)
    requires Parsed(config) && Resolved(config, reg)
    requires |steps| == |configs| && forall i | 0 <= i < |configs| ::
      && configs[i] in config.steps && steps[i].name == configs[i].name
      && steps[i].executor == ResolvedExecutor(configs[i], reg)
    ensures Find(steps, name).Some? <==> FindConfig(configs, name).Some?
    ensures Find(steps, name).Some? ==>
      FindConfig(configs, name).value in config.steps &&
      Find(steps, name).value.executor == ResolvedExecutor(FindConfig(configs, name).value, reg)
    decreases |steps|
  {
    if steps != [] && steps[0].name != name {
      FindAgrees(config, reg, steps[1..], configs[1..], name);
    }
  }

  lemma LandAgrees(steps: seq<Step>, config: FlowConfig, reg: Registries, next: string, handoff: Option<string>)
    requires Parsed(config) && Valid(config) && Resolved(config, reg) && CompiledFrom(steps, config, reg)
    requires next == END_STEP || next in ConfigNames(config.steps)
    ensures CheckHandoff(steps, next, handoff) == Land(config, reg, next, handoff)
  {
    CompiledNames(steps, config, reg);
    FindAgrees(config, reg, steps, config.steps, next);
  }

  /** Main result: on every output and handoff, next-step resolution over the compiled steps equals
      direct interpretation of the config. */
  lemma CompilationPreservesMeaning(steps: seq<Step>, config: FlowConfig, reg: Registries, i: nat,
                                    output: Value, handoff: Option<string>, str: Value -> string)
    requires Parsed(config) && Valid(config) && Resolved(config, reg) && CompiledFrom(steps, config, reg)
    requires i < |config.steps|
    ensures config.steps[i] in config.steps
    ensures ResolveNextStep(steps[i], output, steps, handoff, str)
      == Interpret(config, reg, config.steps[i].transition, output, handoff, str)
  {
    var s := config.steps[i];
    var t := s.transition;
    match t.kind
    case Then => LandAgrees(steps, config, reg, t.nextStep.value, handoff);
    case End => LandAgrees(steps, config, reg, END_STEP, handoff);
    case Branch =>
      if output.Dict? {
        var route := str(Get(output.entries, t.router.value));
        if route in t.mapping.value {
          LandAgrees(steps, config, reg, t.mapping.value[route], handoff);
        }
      }
    case RouteTo =>
      if output.Dict? && Get(output.entries, "next_step").Text? {
        var next := NormalizeStepRef(Get(output.entries, "next_step").text);
        CasingsOfEnd(Get(output.entries, "next_step").text);
        if next in t.allowed.value {
          LandAgrees(steps, config, reg, next, handoff);
        }
      }
  }

  /** The proviso on names is exact: a step called "entry_step" is lost or makes compilation fail. */
  lemma EntryStepNameBreaks(config: FlowConfig, reg: Registries, specs: seq<StepSpec>)
    requires Parsed(config) && Valid(config) && Resolved(config, reg) && SpecsOf(specs, config, reg)
    requires "entry_step" in ConfigNames(config.steps)
    ensures DistinctSpecs(specs) && forall s | s in specs :: BuiltTransition(s.transition).Some?
    ensures
      var attrs := Namespace(specs, config.entryStep);
      var steps := Declared(attrs);
      "entry_step" !in Names(steps) || EntryChoice(attrs, steps).None?
  {
    hide Valid, BuiltTransition, StepAttrs, AttrPut, Declared, Lookup;
    SpecsBuilt(config, reg, specs);
    var i :| 0 <= i < |config.steps| && config.steps[i].name == "entry_step";
    SpecNamed(config, reg, specs, i);
    if config.entryStep.None? {
      StepAsEntry(specs, i);
    } else {
      EntryOverwrites(specs, i, config.entryStep.value);
    }
  }

  lemma SpecNamed(config: FlowConfig, reg: Registries, specs: seq<StepSpec>, i: nat)
    requires Parsed(config) && Resolved(config, reg) && SpecsOf(specs, config, reg) && i < |config.steps|
    ensures specs[i].name == config.steps[i].name
  {
    assert SpecOf(specs[i], config.steps[i], reg);
  }

  /** The step itself is then taken for the entry choice. */
  lemma StepAsEntry(specs: seq<StepSpec>, i: nat)
    requires DistinctSpecs(specs) && forall s | s in specs :: BuiltTransition(s.transition).Some?
    requires i < |specs| && specs[i].name == "entry_step"
    ensures Lookup(StepAttrs(specs), "entry_step").StepAttr?
  {
    hide BuiltTransition;
    LookupAt(StepAttrs(specs), "entry_step", i);
  }

  /** The entry choice takes the step's place in the namespace. */
  lemma EntryOverwrites(specs: seq<StepSpec>, i: nat, entry: string)
    requires DistinctSpecs(specs) && forall s | s in specs :: BuiltTransition(s.transition).Some?
    requires i < |specs| && specs[i].name == "entry_step"
    ensures "entry_step" !in Names(Declared(AttrPut(StepAttrs(specs), "entry_step", NameAttr(entry))))
  {
    hide BuiltTransition;
    var base := StepAttrs(specs);
    var attrs := AttrPut(base, "entry_step", NameAttr(entry));
    assert base[i].0 == "entry_step";
    assert |attrs| == |base| && forall k | 0 <= k < |base| :: attrs[k] == if k == i then ("entry_step", NameAttr(entry))
      else base[k];
    DeclaredFrom(attrs);
    forall s | s in Declared(attrs) ensures s.name != "entry_step" {
      var k :| 0 <= k < |attrs| && attrs[k].1 == StepAttr(s);
      assert k != i;
    }
  }

  /** The names no step can have: the entry choice's, those looked up on the instance, the interpreter's. */
  function Taken(host: Host): set<string> {
    {"entry_step", "_register_step_executors", "steps"} + host.reserved
  }

  /** What the namespace binds: each step's name to a step, unless the entry choice has taken its place. */
  lemma NamespaceBinds(specs: seq<StepSpec>, entryStep: Option<string>)
    requires forall s | s in specs :: BuiltTransition(s.transition).Some?
    ensures
      var attrs := Namespace(specs, entryStep);
      && |specs| <= |attrs|
      && (forall k | 0 <= k < |specs| ::
           attrs[k].0 == specs[k].name && (attrs[k].1.StepAttr? || specs[k].name == "entry_step"))
      && (forall k | |specs| <= k < |attrs| :: attrs[k].0 == "entry_step")
  {
    hide BuiltTransition, CompiledStep;
  }

  /** What a lookup finds in the compiled class under any name but the entry choice's: the step of that name,
      or what Workflow itself has. */
  lemma LookupFinds(config: FlowConfig, reg: Registries, specs: seq<StepSpec>, name: string)
    requires Parsed(config) && Valid(config) && Resolved(config, reg) && SpecsOf(specs, config, reg)
      && name != "entry_step"
    ensures DistinctSpecs(specs) && forall s | s in specs :: BuiltTransition(s.transition).Some?
    ensures
      var attrs := Namespace(specs, config.entryStep);
      && (name in ConfigNames(config.steps) ==> Lookup(attrs, name).StepAttr?)
      && (name !in ConfigNames(config.steps) ==> Inherited(attrs, name))
  {
    hide Valid, BuiltTransition, Namespace, Lookup, Parsed, Resolved, SpecsOf;
    SpecsBuilt(config, reg, specs);
    NamespaceBinds(specs, config.entryStep);
    var attrs := Namespace(specs, config.entryStep);
    NamesKnown(config, reg, specs);
    if name in ConfigNames(config.steps) {
      var i :| 0 <= i < |config.steps| && config.steps[i].name == name;
      LookupAt(attrs, name, i);
    } else {
      LookupAbsent(attrs, name);
    }
  }

  lemma NamesKnown(config: FlowConfig, reg: Registries, specs: seq<StepSpec>)
    requires Parsed(config) && Resolved(config, reg) && SpecsOf(specs, config, reg)
    ensures |specs| == |config.steps|
    ensures forall k | 0 <= k < |specs| ::
      specs[k].name == config.steps[k].name && specs[k].name in ConfigNames(config.steps)
  {
    hide SpecOf;
    forall k | 0 <= k < |specs|
      ensures specs[k].name == config.steps[k].name && specs[k].name in ConfigNames(config.steps)
    {
      SpecNamed(config, reg, specs, k);
      assert config.steps[k] in config.steps;
    }
  }

  /** A step called like an attribute that is looked up on the way, `steps` for one, is found in its place:
      the class exists but no instance of it can be made. */
  lemma TakenNameBreaks(config: FlowConfig, reg: Registries, specs: seq<StepSpec>, host: Host, name: string,
                        steps: seq<Step>)
    requires Parsed(config) && Valid(config) && Resolved(config, reg) && SpecsOf(specs, config, reg)
    requires name in ConfigNames(config.steps) && name in Taken(host) && name != "entry_step"
    ensures DistinctSpecs(specs) && forall s | s in specs :: BuiltTransition(s.transition).Some?
    ensures !Instantiable(Namespace(specs, config.entryStep), steps, host)
  {
    hide Valid, BuiltTransition, Lookup, ConfigNames, Admits, Namespace;
    LookupFinds(config, reg, specs, name);
  }

  lemma FreeNamesInstantiable(config: FlowConfig, reg: Registries, specs: seq<StepSpec>, host: Host, steps: seq<Step>)
    requires Parsed(config) && Valid(config) && Resolved(config, reg) && SpecsOf(specs, config, reg)
    requires ConfigNames(config.steps) !! Taken(host)
    ensures DistinctSpecs(specs) && forall s | s in specs :: BuiltTransition(s.transition).Some?
    ensures Instantiable(Namespace(specs, config.entryStep), steps, host) <==> Admits(host, steps)
  {
    hide Valid, BuiltTransition, Lookup, ConfigNames, Admits, Namespace;
    LookupFinds(config, reg, specs, "steps");
    LookupFinds(config, reg, specs, "_register_step_executors");
    EntryChoiceKept(config, reg, specs);
    forall n | n in host.reserved ensures !Lookup(Namespace(specs, config.entryStep), n).StepAttr? {
      if n != "entry_step" {
        LookupFinds(config, reg, specs, n);
      }
    }
  }

  /** Where no step has its name, the entry choice is looked up as it was given. */
  lemma EntryChoiceKept(config: FlowConfig, reg: Registries, specs: seq<StepSpec>)
    requires Parsed(config) && Valid(config) && Resolved(config, reg) && SpecsOf(specs, config, reg)
    requires "entry_step" !in ConfigNames(config.steps)
    ensures DistinctSpecs(specs) && forall s | s in specs :: BuiltTransition(s.transition).Some?
    ensures !Lookup(Namespace(specs, config.entryStep), "entry_step").StepAttr?
  {
    hide Declared, CompiledFrom;
    CompiledSteps(config, reg, specs);
  }

  /** The steps the config describes. */
  function StepsOf(config: FlowConfig, reg: Registries): seq<Step>
    requires Parsed(config) && Resolved(config, reg)
  {
    seq(|config.steps|, i requires 0 <= i < |config.steps| =>
      var s := config.steps[i];
      assert s in config.steps;
      Step(s.name, ResolvedExecutor(s, reg), s.requiredArtifacts, s.emittedArtifact, s.approvalOverride,
           Some(StatedTransition(s.transition)), Some(ModeOf(StatedTransition(s.transition)))))
  }

  /** What the metaclass makes of the namespace, step names aside. */
  lemma CompileOutcome(config: FlowConfig, reg: Registries, specs: seq<StepSpec>)
    requires Parsed(config) && Valid(config) && Resolved(config, reg) && SpecsOf(specs, config, reg)
    requires config.steps != [] && "entry_step" !in ConfigNames(config.steps)
    ensures DistinctSpecs(specs) && forall s | s in specs :: BuiltTransition(s.transition).Some?
    ensures
      var attrs := Namespace(specs, config.entryStep);
      var steps := Declared(attrs);
      && steps != [] && EntryChoice(attrs, steps).Some?
      && CompiledFrom(steps, config, reg)
      && Accepted(Workflow(steps, EntryChoice(attrs, steps)))
      && SameShape(Workflow(steps, EntryChoice(attrs, steps)), config)
  {
    hide Accepted, BuiltTransition, Namespace, Declared, Lookup, CompiledFrom, SpecsOf, SameShape, Valid, Parsed,
      Resolved, ConfigNames, Names;
    CompiledSteps(config, reg, specs);
    var steps := Declared(Namespace(specs, config.entryStep));
    var entry := if config.entryStep.Some? then config.entryStep.value else config.steps[0].name;
    CompiledNames(steps, config, reg);
    CompiledShape(steps, config, reg);
    EntryKnown(config);
    CompiledAccepted(steps, entry, config, reg);
  }

  lemma CompiledShape(steps: seq<Step>, config: FlowConfig, reg: Registries)
    requires Parsed(config) && Resolved(config, reg) && CompiledFrom(steps, config, reg) && config.steps != []
    ensures steps != [] && steps[0].name == config.steps[0].name
    ensures SameShape(
        Workflow(steps, Some(if config.entryStep.Some? then config.entryStep.value else config.steps[0].name)), config)
  {
    hide Parsed, Resolved;
  }

  lemma EntryKnown(config: FlowConfig)
    requires Valid(config)
    ensures config.entryStep.Some? ==> config.entryStep.value in ConfigNames(config.steps)
  {
    hide TargetsKnown, DistinctConfigs;
  }

  lemma LostStep(wf: Workflow, config: FlowConfig)
    requires "entry_step" in ConfigNames(config.steps) && "entry_step" !in Names(wf.steps)
    ensures !SameShape(wf, config)
  {
    var i :| 0 <= i < |config.steps| && config.steps[i].name == "entry_step";
    if i < |wf.steps| {
      assert wf.steps[i].name in Names(wf.steps);
    }
  }

  /** governed_flow_from_config, end to end: a valid config with its executors resolved compiles to an
      accepted, instantiated class of the same shape exactly when no step has a taken name and the host
      takes the executors. */
  method Compile(config: FlowConfig, reg: Registries, host: Host) returns (r: Result<Workflow, ConfigError>)
    requires Parsed(config)
    ensures !Valid(config) ==> r.Failure?
    ensures Valid(config) && Resolved(config, reg) && config.steps != [] ==>
      (r.Success? && SameShape(r.value, config) <==>
         ConfigNames(config.steps) !! Taken(host) && Admits(host, StepsOf(config, reg)))
    ensures Valid(config) && Resolved(config, reg) && config.steps != [] && r.Success? && SameShape(r.value, config) ==>
      Accepted(r.value) && CompiledFrom(r.value.steps, config, reg)
  {
    var specs :- ConfigToSpec(config, reg);
    assert DistinctSpecs(specs);
    r := GovernedFlow(specs, config.entryStep, host);
    if Resolved(config, reg) && config.steps != [] {
      assert SpecsOf(specs, config, reg);
      CompileDecided(config, reg, specs, host, r);
    }
  }

  /** What governed_flow says of such specs, against the condition on names. */
  lemma CompileDecided(config: FlowConfig, reg: Registries, specs: seq<StepSpec>, host: Host,
                       r: Result<Workflow, ConfigError>)
    requires Parsed(config) && Valid(config) && Resolved(config, reg) && SpecsOf(specs, config, reg)
      && config.steps != []
    requires
      && (forall s | s in specs :: BuiltTransition(s.transition).Some?) ==>
         var attrs := Namespace(specs, config.entryStep);
         var steps := Declared(attrs);
         && (steps == [] ==> r.Success? ==> r.value == Workflow([], None))
         && (steps != [] ==>
               && (r.Success? <==>
                     Distinct(steps) && Closed(steps) && EntryChoice(attrs, steps).Some?
                       && Instantiable(attrs, steps, host))
               && (r.Success? ==> r.value == Workflow(steps, EntryChoice(attrs, steps))))
    ensures r.Success? && SameShape(r.value, config) <==>
      ConfigNames(config.steps) !! Taken(host) && Admits(host, StepsOf(config, reg))
    ensures r.Success? && SameShape(r.value, config) ==> Accepted(r.value) && CompiledFrom(r.value.steps, config, reg)
  {
    hide Valid, BuiltTransition, Declared, Namespace, Instantiable, Distinct, Closed, Coherent, EntryChoice,
      ConfigNames;
    SpecsBuilt(config, reg, specs);
    var attrs := Namespace(specs, config.entryStep);
    var steps := Declared(attrs);
    if "entry_step" in ConfigNames(config.steps) {
      EntryStepNameBreaks(config, reg, specs);
      if r.Success? {
        LostStep(r.value, config);
      }
    } else {
      CompileOutcome(config, reg, specs);
      if ConfigNames(config.steps) !! Taken(host) {
        FreeNamesInstantiable(config, reg, specs, host, steps);
        assert steps == StepsOf(config, reg);
      } else {
        var name :| name in ConfigNames(config.steps) && name in Taken(host);
        TakenNameBreaks(config, reg, specs, host, name, steps);
      }
    }
  }
}
