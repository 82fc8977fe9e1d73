/** Steps, transitions, the definition-time graph check and next-step resolution
    (governai/workflows/transitions.py, step.py, base.py, runner.py and
    LocalRuntime._validate_goto). */
module Workflows {
  import opened Prelude
  import opened Values

  const END_STEP := "__END__"

  datatype Mode = Strict | RuleBased | BoundedRouting

  datatype Transition =
    | StrictTransition(nextStep: string)
    | RuleBasedTransition(router: string, mapping: map<string, string>)
    | BoundedRoutingTransition(allowed: seq<string>)

  datatype Executor = Tool(name: string, gated: bool) | Agent(name: string, gated: bool, handoffs: seq<string>)

  /** A step definition, as WorkflowMeta keeps it after copying. */
  datatype Step = Step(
    name: string,
    executor: Executor,
    requiredArtifacts: seq<string>,
    emittedArtifact: Option<string>,
    approvalOverride: Option<bool>,
    transition: Option<Transition>,
    mode: Option<Mode>)

  /** The class attributes WorkflowMeta sets. */
  datatype Workflow = Workflow(steps: seq<Step>, entry: Option<string>)

  predicate IsEndRef(ref: string) {
    |ref| == 3 && ref[0] in "eE" && ref[1] in "nN" && ref[2] in "dD"
  }

  function NormalizeStepRef(ref: string): string {
    if IsEndRef(ref) then END_STEP else ref
  }

  function Normalized(t: Transition): Transition {
    match t
    case StrictTransition(next) => StrictTransition(NormalizeStepRef(next))
    case RuleBasedTransition(router, mapping) =>
      RuleBasedTransition(router, map k | k in mapping :: NormalizeStepRef(mapping[k]))
    case BoundedRoutingTransition(allowed) =>
      BoundedRoutingTransition(seq(|allowed|, i requires 0 <= i < |allowed| => NormalizeStepRef(allowed[i])))
  }

  /** A text with its capital letters made small. */
  function Lowercase(text: string): string {
    if text == "" then "" else [LowercaseLetter(text[0])] + Lowercase(text[1..])
  }

  function LowercaseLetter(c: char): char {
    if 'A' <= c <= 'Z' then (c as int + 32) as char else c
  }

  /** What a reference stands for: the end, if it reads "end" in small letters, and itself otherwise. */
  function Denoted(ref: string): string {
    if Lowercase(ref) == "end" then "__END__" else ref
  }

  lemma {:induction false} LowercaseAt(text: string)
    ensures |Lowercase(text)| == |text|
    ensures forall i | 0 <= i < |text| :: Lowercase(text)[i] == LowercaseLetter(text[i])
  {
    if text != "" {
      LowercaseAt(text[1..]);
    }
  }

  /** Every casing of "end" is the end, and nothing else is. */
  lemma CasingsOfEnd(ref: string)
    ensures NormalizeStepRef(ref) == Denoted(ref)
    ensures NormalizeStepRef(ref) == "__END__" <==> Lowercase(ref) == "end" || ref == "__END__"
  {
    LowercaseAt(ref);
    if |ref| == 3 {
      assert Lowercase(ref) == [LowercaseLetter(ref[0]), LowercaseLetter(ref[1]), LowercaseLetter(ref[2])];
      assert ref == [ref[0], ref[1], ref[2]];
    }
  }

  /** The transition that stands where `raw` was written: each of its targets is what the text denotes. */
  ghost predicate Stands(raw: Transition, t: Transition) {
    match raw
    case StrictTransition(next) => t == StrictTransition(Denoted(next))
    case RuleBasedTransition(router, mapping) =>
      && t.RuleBasedTransition? && t.router == router && t.mapping.Keys == mapping.Keys
      && forall k | k in mapping :: t.mapping[k] == Denoted(mapping[k])
    case BoundedRoutingTransition(allowed) =>
      && t.BoundedRoutingTransition? && |t.allowed| == |allowed|
      && forall i | 0 <= i < |allowed| :: t.allowed[i] == Denoted(allowed[i])
  }

  lemma NormalizedStands(t: Transition)
    ensures Stands(t, Normalized(t))
  {
    hide NormalizeStepRef, Denoted;
    match t
    case StrictTransition(next) => CasingsOfEnd(next);
    case RuleBasedTransition(_, mapping) =>
      forall k | k in mapping ensures Normalized(t).mapping[k] == Denoted(mapping[k]) {
        CasingsOfEnd(mapping[k]);
      }
    case BoundedRoutingTransition(allowed) =>
      forall i | 0 <= i < |allowed| ensures Normalized(t).allowed[i] == Denoted(allowed[i]) {
        CasingsOfEnd(allowed[i]);
      }
  }

  function ModeOf(t: Transition): Mode {
    match t
    case StrictTransition(_) => Strict
    case RuleBasedTransition(_, _) => RuleBased
    case BoundedRoutingTransition(_) => BoundedRouting
  }

  /** Every name a transition can lead to, END_STEP included. */
  function Targets(t: Transition): set<string> {
    match t
    case StrictTransition(next) => {next}
    case RuleBasedTransition(_, mapping) => mapping.Values
    case BoundedRoutingTransition(allowed) => set n | n in allowed
  }

  function Names(steps: seq<Step>): set<string> {
    set s | s in steps :: s.name
  }

  predicate Distinct(steps: seq<Step>) {
    forall i, j | 0 <= i < j < |steps| :: steps[i].name != steps[j].name
  }

  function Find(steps: seq<Step>, name: string): (found: Option<Step>)
    ensures found.Some? ==> found.value in steps && found.value.name == name
    ensures found.None? <==> name !in Names(steps)
  {
    if steps == [] then None
    else if steps[0].name == name then Some(steps[0])
    else
      var rest := Find(steps[1..], name);
      assert steps == [steps[0]] + steps[1..];
      rest
  }

  lemma FindDistinct(steps: seq<Step>, step: Step)
    requires Distinct(steps) && step in steps
    ensures Find(steps, step.name) == Some(step)
  {
    var found := Find(steps, step.name);
    assert step.name in Names(steps);
    var i :| 0 <= i < |steps| && steps[i] == step;
    var j :| 0 <= j < |steps| && steps[j] == found.value;
    assert i == j;
  }

  // ---- definition-time check ----

  /** What WorkflowMeta requires of a non-empty ordered table of steps. */
  ghost predicate Closed(steps: seq<Step>) {
    forall s | s in steps ::
      && s.transition.Some? && s.mode.Some?
      && forall t | t in Targets(s.transition.value) :: t == END_STEP || t in Names(steps)
  }

  /** Builders set the mode together with the transition. */
  ghost predicate Coherent(s: Step) {
    s.transition.Some? ==> s.mode == Some(ModeOf(s.transition.value))
  }

  /** A class that WorkflowMeta accepts, with at least one step and steps made by the builders. */
  ghost predicate Accepted(wf: Workflow) {
    && wf.steps != [] && Distinct(wf.steps) && Closed(wf.steps)
    && wf.entry.Some? && wf.entry.value in Names(wf.steps)
    && forall s | s in wf.steps :: Coherent(s)
  }

  datatype DefinitionError =
    | DuplicateStep(name: string)
    | MissingTransition(name: string)
    | UnknownTarget(name: string)
    | UnknownEntry

  /** A value in the class namespace. */
  datatype Attr = StepAttr(step: Step) | NameAttr(text: string) | NoneAttr

  /** Ordered-dict assignment keyed by the step's own name. */
  function DictPut(steps: seq<Step>, s: Step): seq<Step> {
    if s.name in Names(steps)
    then seq(|steps|, i requires 0 <= i < |steps| => if steps[i].name == s.name then s else steps[i])
    else steps + [s]
  }

  lemma DictPutNames(steps: seq<Step>, s: Step)
    ensures Names(DictPut(steps, s)) == Names(steps) + {s.name}
    ensures Distinct(steps) ==> Distinct(DictPut(steps, s))
  {
    var r := DictPut(steps, s);
    if s.name in Names(steps) {
      assert forall i | 0 <= i < |steps| :: r[i].name == steps[i].name;
      forall n | n in Names(steps) ensures n in Names(r) {
        var i :| 0 <= i < |steps| && steps[i].name == n;
        assert r[i] in r;
      }
    } else {
      forall n | n in Names(steps) + {s.name} ensures n in Names(r) {
        if n == s.name {
          assert r[|steps|] in r;
        } else {
          var i :| 0 <= i < |steps| && steps[i].name == n;
          assert r[i] in r;
        }
      }
      forall i, j | 0 <= i < j < |r| && Distinct(steps) ensures r[i].name != r[j].name {
        assert r[i] in steps;
      }
    }
  }

  /** The steps declared in a namespace, in order of first appearance. */
  function Declared(attrs: seq<(string, Attr)>): seq<Step> {
    if attrs == [] then []
    else
      var n := |attrs| - 1;
      match attrs[n].1
      case StepAttr(s) => DictPut(Declared(attrs[..n]), s)
      case _ => Declared(attrs[..n])
  }

  /** The value bound last to a key of the namespace. */
  function Lookup(attrs: seq<(string, Attr)>, key: string): Attr {
    if attrs == [] then NoneAttr
    else if attrs[|attrs| - 1].0 == key then attrs[|attrs| - 1].1
    else Lookup(attrs[..|attrs| - 1], key)
  }

  /** The entry step a namespace selects among some steps, if that is a step at all. */
  function EntryChoice(attrs: seq<(string, Attr)>, steps: seq<Step>): Option<string>
    requires steps != []
  {
    match Lookup(attrs, "entry_step")
    case NoneAttr => Some(steps[0].name)
    case NameAttr(n) => if n in Names(steps) then Some(n) else None
    case StepAttr(_) => None
  }

  /** The two passes over the table: every step has a transition, every target is a step or the end. */
  method CheckGraph(steps: seq<Step>) returns (r: Option<DefinitionError>)
    ensures r.None? <==> Closed(steps)
    ensures r.Some? ==> r.value.MissingTransition? || r.value.UnknownTarget?
    ensures r.Some? && r.value.MissingTransition? ==> exists s | s in steps :: s.transition.None? || s.mode.None?
  {
    for i := 0 to |steps|
      invariant forall k | 0 <= k < i :: steps[k].transition.Some? && steps[k].mode.Some?
    {
      if steps[i].transition.None? || steps[i].mode.None? {
        assert steps[i] in steps;
        return Some(MissingTransition(steps[i].name));
      }
    }
    var names := Names(steps);
    for i := 0 to |steps|
      invariant forall k | 0 <= k < i :: forall t | t in Targets(steps[k].transition.value) ::
        t == END_STEP || t in names
    {
      var unchecked := Targets(steps[i].transition.value);
      while unchecked != {}
        invariant unchecked <= Targets(steps[i].transition.value)
        invariant forall t | t in Targets(steps[i].transition.value) - unchecked :: t == END_STEP || t in names
      {
        var target :| target in unchecked;
        if target != END_STEP && target !in names {
          assert steps[i] in steps;
          return Some(UnknownTarget(steps[i].name));
        }
        unchecked := unchecked - {target};
      }
    }
    return None;
  }

  /** Graph validation and entry choice of WorkflowMeta.__new__. */
  method MakeClass(inherited: seq<Step>, attrs: seq<(string, Attr)>) returns (r: Result<Workflow, DefinitionError>)
    requires Distinct(inherited)
    ensures inherited + Declared(attrs) == [] ==> r == Success(Workflow([], None))
    ensures inherited + Declared(attrs) != [] ==>
      var steps := inherited + Declared(attrs);
      && (r.Success? <==> Distinct(steps) && Closed(steps) && EntryChoice(attrs, steps).Some?)
      && (r.Success? ==> r.value == Workflow(steps, EntryChoice(attrs, steps)))
      && (r.Failure? && r.error.DuplicateStep? <==> !Distinct(steps))
      && (r.Failure? && r.error.UnknownEntry? ==> Distinct(steps) && Closed(steps))
      && (r.Failure? && r.error.MissingTransition? ==> exists s | s in steps :: s.transition.None? || s.mode.None?)
  {
    var declared: seq<Step> := [];
    for i := 0 to |attrs|
      invariant declared == Declared(attrs[..i])
      invariant Distinct(declared)
    {
      assert attrs[..i + 1][..i] == attrs[..i];
      if attrs[i].1.StepAttr? {
        DictPutNames(declared, attrs[i].1.step);
        declared := DictPut(declared, attrs[i].1.step);
      }
    }
    assert attrs[..|attrs|] == attrs;
    ghost var all := inherited + Declared(attrs);
    if declared == [] && inherited == [] {
      return Success(Workflow([], None));
    }
    var steps := inherited;
    for i := 0 to |declared|
      invariant steps == inherited + declared[..i]
      invariant Distinct(steps)
    {
      if declared[i].name in Names(steps) {
        assert all[|inherited| + i] == declared[i];
        ghost var k :| 0 <= k < |steps| && steps[k].name == declared[i].name;
        assert all[k] == steps[k];
        return Failure(DuplicateStep(declared[i].name));
      }
      forall k | 0 <= k < |steps| ensures steps[k].name != declared[i].name {
        assert steps[k] in steps;
      }
      steps := steps + [declared[i]];
    }
    assert steps == all;
    var broken := CheckGraph(steps);
    if broken.Some? {
      return Failure(broken.value);
    }
    var entry := EntryChoice(attrs, steps);
    if entry.None? {
      return Failure(UnknownEntry);
    }
    return Success(Workflow(steps, entry));
  }

  // ---- the step builders ----

  /** A definition under construction; `then`, `branch` and `route_to` set its transition and mode. */
  class StepDefinition {
    const name: string
    const executor: Executor
    const requiredArtifacts: seq<string>
    const emittedArtifact: Option<string>
    const approvalOverride: Option<bool>
    var transition: Option<Transition>
    var mode: Option<Mode>

    constructor (name: string, executor: Executor, requiredArtifacts: seq<string>,
                 emittedArtifact: Option<string>, approvalOverride: Option<bool>)
      ensures Copy() == Step(name, executor, requiredArtifacts, emittedArtifact, approvalOverride, None, None)
    {
      this.name := name;
      this.executor := executor;
      this.requiredArtifacts := requiredArtifacts;
      this.emittedArtifact := emittedArtifact;
      this.approvalOverride := approvalOverride;
      transition := None;
      mode := None;
    }

    function Copy(): Step
      reads this
    {
      Step(name, executor, requiredArtifacts, emittedArtifact, approvalOverride, transition, mode)
    }

    /** Shared tail of the builders: the dataclass normalises its targets on construction. */
    method Set(t: Transition)
      modifies this
      ensures Copy() == old(Copy()).(transition := Some(Normalized(t)), mode := Some(ModeOf(t)))
      ensures Coherent(Copy()) && Stands(t, Copy().transition.value)
    {
      NormalizedStands(t);
      transition := Some(Normalized(t));
      mode := Some(ModeOf(t));
    }

    method Then(nextStep: string)
      modifies this
      ensures Copy()
        == old(Copy()).(transition := Some(StrictTransition(Denoted(nextStep))), mode := Some(Strict))
      ensures Copy().transition == Some(Normalized(StrictTransition(nextStep)))
    {
      Set(StrictTransition(nextStep));
    }

    method ThenEnd()
      modifies this
      ensures Copy() == old(Copy()).(transition := Some(StrictTransition(END_STEP)), mode := Some(Strict))
    {
      Set(StrictTransition(END_STEP));
    }

    method Branch(router: string, mapping: map<string, string>)
      modifies this
      ensures Copy()
        == old(Copy()).(transition := Some(Normalized(RuleBasedTransition(router, mapping))), mode := Some(RuleBased))
      ensures Stands(RuleBasedTransition(router, mapping), Copy().transition.value)
    {
      Set(RuleBasedTransition(router, mapping));
    }

    method RouteTo(allowed: seq<string>)
      modifies this
      ensures Copy()
        == old(Copy()).(transition := Some(Normalized(BoundedRoutingTransition(allowed))), mode := Some(BoundedRouting))
      ensures Stands(BoundedRoutingTransition(allowed), Copy().transition.value)
    {
      Set(BoundedRoutingTransition(allowed));
    }
  }

  // ---- next-step resolution ----

  datatype RouteError =
    | NoTransition
    | AssertionFailed
    | NotADict
    | MissingRouterField
    | NoBranch
    | NoProposal
    | IllegalTarget
    | UnknownTargetStep
    | HandoffAtEnd
    | HandoffMismatch

  /** The handoff clause shared by resolve_next_step and _validate_goto. */
  function CheckHandoff(steps: seq<Step>, next: string, handoff: Option<string>): Result<string, RouteError> {
    if next != END_STEP && next !in Names(steps) then Failure(UnknownTargetStep)
    else if handoff.None? then Success(next)
    else if next == END_STEP then Failure(HandoffAtEnd)
    else
      var candidate := Find(steps, next).value.executor;
      if candidate.Agent? && candidate.name == handoff.value then Success(next) else Failure(HandoffMismatch)
  }

  /** resolve_next_step; str() of a routing value is the parameter `str`. */
  function ResolveNextStep(step: Step, output: Value, steps: seq<Step>, handoff: Option<string>,
                           str: Value -> string): Result<string, RouteError>
  {
    if step.transition.None? || step.mode.None? then Failure(NoTransition)
    else match step.mode.value
      case Strict =>
        if !step.transition.value.StrictTransition? then Failure(AssertionFailed)
        else CheckHandoff(steps, step.transition.value.nextStep, handoff)
      case RuleBased =>
        if !step.transition.value.RuleBasedTransition? then Failure(AssertionFailed)
        else if !output.Dict? then Failure(NotADict)
        else
          var route := Get(output.entries, step.transition.value.router);
          if route.Null? then Failure(MissingRouterField)
          else if str(route) !in step.transition.value.mapping then Failure(NoBranch)
          else CheckHandoff(steps, step.transition.value.mapping[str(route)], handoff)
      case BoundedRouting =>
        if !step.transition.value.BoundedRoutingTransition? then Failure(AssertionFailed)
        else if !output.Dict? then Failure(NotADict)
        else
          var proposed := Get(output.entries, "next_step");
          if !proposed.Text? then Failure(NoProposal)
          else
            var next := NormalizeStepRef(proposed.text);
            if next !in step.transition.value.allowed then Failure(IllegalTarget)
            else CheckHandoff(steps, next, handoff)
  }

  /** _validate_goto. */
  function ValidateGoto(step: Step, goto: string, steps: seq<Step>,
                        handoff: Option<string>): Result<string, RouteError>
  {
    var next := NormalizeStepRef(goto);
    if step.transition.None? || step.mode.None? then Failure(NoTransition)
    else if step.mode.value != ModeOf(step.transition.value) then Failure(AssertionFailed)
    else if next !in Targets(step.transition.value) then Failure(IllegalTarget)
    else CheckHandoff(steps, next, handoff)
  }

  /** _resolve_next_step_for_step: a goto command overrides the declared rule. */
  function RouteNext(step: Step, output: Value, steps: seq<Step>, handoff: Option<string>,
                     goto: Option<string>, str: Value -> string): Result<string, RouteError>
  {
    if goto.Some? then ValidateGoto(step, goto.value, steps, handoff)
    else ResolveNextStep(step, output, steps, handoff, str)
  }

  // ---- what routing guarantees on an accepted class ----

  /** The target the output, or the goto, asks for, where the transition declares it. */
  ghost predicate PointsTo(t: Transition, output: Value, goto: Option<string>, str: Value -> string, n: string) {
    if goto.Some? then n == Denoted(goto.value) && Declares(t, n)
    else match t
      case StrictTransition(next) => n == next
      case RuleBasedTransition(router, mapping) =>
        && output.Dict? && router in output.entries && output.entries[router] != Null
        && str(output.entries[router]) in mapping && n == mapping[str(output.entries[router])]
      case BoundedRoutingTransition(allowed) =>
        && output.Dict? && "next_step" in output.entries && output.entries["next_step"].Text?
        && n == Denoted(output.entries["next_step"].text) && n in allowed
  }

  ghost predicate Declares(t: Transition, n: string) {
    match t
    case StrictTransition(next) => n == next
    case RuleBasedTransition(_, mapping) => exists k | k in mapping :: mapping[k] == n
    case BoundedRoutingTransition(allowed) => n in allowed
  }

  ghost predicate HandoffLands(steps: seq<Step>, next: string, handoff: Option<string>) {
    handoff.Some? ==>
      next != END_STEP && exists s | s in steps ::
        s.name == next && s.executor.Agent? && s.executor.name == handoff.value
  }

  /** The handoff clause accepts a known target exactly when the handoff lands on it. */
  lemma HandoffChecked(steps: seq<Step>, n: string, handoff: Option<string>)
    requires Distinct(steps) && (n == END_STEP || n in Names(steps))
    ensures
      var r := CheckHandoff(steps, n, handoff);
      && (r == Success(n) <==> HandoffLands(steps, n, handoff))
      && (r.Success? ==> r.value == n) && (r.Failure? ==> r.error == HandoffAtEnd || r.error == HandoffMismatch)
  {
    if handoff.Some? && n != END_STEP {
      var found := Find(steps, n).value;
      forall s | s in steps && s.name == n ensures s == found {
        FindDistinct(steps, s);
      }
    }
  }

  /** The check against the graph has the last word on a target that is declared. */
  lemma DeclaredTargets(t: Transition, n: string)
    ensures Declares(t, n) <==> n in Targets(t)
  {
  }

  lemma RoutedTargets(step: Step, output: Value, steps: seq<Step>, handoff: Option<string>, goto: Option<string>,
                      str: Value -> string, n: string)
    requires step.transition.Some? && step.mode == Some(ModeOf(step.transition.value)) && Distinct(steps)
    requires forall target | target in Targets(step.transition.value) :: target == END_STEP || target in Names(steps)
    ensures
      var r := RouteNext(step, output, steps, handoff, goto, str);
      && (r == Success(n) <==>
           PointsTo(step.transition.value, output, goto, str, n) && HandoffLands(steps, n, handoff))
      && (r.Failure? ==> r.error != UnknownTargetStep && r.error != NoTransition && r.error != AssertionFailed)
  {
    hide CheckHandoff, HandoffLands, Names, Distinct, Denoted, NormalizeStepRef, Declares;
    var t := step.transition.value;
    CasingsOfEnd(goto.GetOr(""));
    if output.Dict? && Get(output.entries, "next_step").Text? {
      CasingsOfEnd(Get(output.entries, "next_step").text);
    }
    DeclaredTargets(t, n);
    forall m | m in Targets(t)
      ensures CheckHandoff(steps, m, handoff) == Success(m) <==> HandoffLands(steps, m, handoff)
      ensures
        match CheckHandoff(steps, m, handoff)
        case Success(v) => v == m
        case Failure(e) => e == HandoffAtEnd || e == HandoffMismatch
    {
      HandoffChecked(steps, m, handoff);
    }
  }

  /** Routing from a step of an accepted class succeeds exactly on a declared target that the output, or the
      goto, points to and that fits the handoff; the target is then END_STEP or a step of the class, and
      the errors for an unknown step, a missing transition or a failed assertion never arise. */
  lemma RoutingStaysInGraph(wf: Workflow, step: Step, output: Value, handoff: Option<string>,
                            goto: Option<string>, str: Value -> string)
    requires Accepted(wf) && step in wf.steps
    ensures
      var r := RouteNext(step, output, wf.steps, handoff, goto, str);
      var t := step.transition.value;
      && (forall n :: r == Success(n) <==> PointsTo(t, output, goto, str, n) && HandoffLands(wf.steps, n, handoff))
      && (r.Success? ==> r.value == END_STEP || Find(wf.steps, r.value).Some?)
      && (r.Failure? ==> r.error != UnknownTargetStep && r.error != NoTransition && r.error != AssertionFailed)
  {
    hide CheckHandoff, RouteNext, HandoffLands, Distinct, Find, PointsTo, Targets;
    assert Coherent(step);
    var r := RouteNext(step, output, wf.steps, handoff, goto, str);
    forall n ensures
      r == Success(n) <==> PointsTo(step.transition.value, output, goto, str, n) && HandoffLands(wf.steps, n, handoff)
    {
      RoutedTargets(step, output, wf.steps, handoff, goto, str, n);
    }
    RoutedTargets(step, output, wf.steps, handoff, goto, str, if r.Success? then r.value else "");
    if r.Success? {
      PointedDeclared(step.transition.value, output, goto, str, r.value);
    }
  }

  lemma PointedDeclared(t: Transition, output: Value, goto: Option<string>, str: Value -> string, n: string)
    requires PointsTo(t, output, goto, str, n)
    ensures n in Targets(t)
  {
    hide Denoted;
    DeclaredTargets(t, n);
  }
}
