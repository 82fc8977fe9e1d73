/** What a class namespace declares (governai/workflows/base.py, lines 25-86): its steps by name, and the
    values bound to its other keys. */
module Namespaces {
  import opened Prelude
  import opened Workflows

  predicate DeclaresName(a: (string, Attr), name: string) {
    a.1.StepAttr? && a.1.step.name == name
  }

  /** The position at which a step of this name is declared first, and at which this one is declared last. */
  ghost predicate FirstAt(attrs: seq<(string, Attr)>, i: nat, name: string) {
    i < |attrs| && DeclaresName(attrs[i], name) && forall j | 0 <= j < i :: !DeclaresName(attrs[j], name)
  }

  ghost predicate LastAt(attrs: seq<(string, Attr)>, i: nat, s: Step) {
    i < |attrs| && attrs[i].1 == StepAttr(s) && forall j | i < j < |attrs| :: !DeclaresName(attrs[j], s.name)
  }

  /** One name is declared before the other is. */
  ghost predicate Earlier(attrs: seq<(string, Attr)>, x: string, y: string) {
    exists i: nat, j: nat :: i < j && FirstAt(attrs, i, x) && FirstAt(attrs, j, y)
  }

  /** Of each name declared the last declaration, in the order in which the names appear first. */
  ghost predicate InFirstOrder(attrs: seq<(string, Attr)>, steps: seq<Step>) {
    && Distinct(steps)
    && (forall s | s in steps :: exists i: nat :: LastAt(attrs, i, s))
    && (forall i | 0 <= i < |attrs| && attrs[i].1.StepAttr? :: attrs[i].1.step.name in Names(steps))
    && (forall a, b | 0 <= a < b < |steps| :: Earlier(attrs, steps[a].name, steps[b].name))
  }

  lemma FirstStays(attrs: seq<(string, Attr)>, a: (string, Attr), i: nat, name: string)
    requires FirstAt(attrs, i, name)
    ensures FirstAt(attrs + [a], i, name)
  {
  }

  lemma LastStays(attrs: seq<(string, Attr)>, a: (string, Attr), i: nat, s: Step)
    requires LastAt(attrs, i, s) && !DeclaresName(a, s.name)
    ensures LastAt(attrs + [a], i, s)
  {
  }

  lemma FirstExists(attrs: seq<(string, Attr)>, name: string) returns (i: nat)
    requires exists k :: 0 <= k < |attrs| && DeclaresName(attrs[k], name)
    ensures FirstAt(attrs, i, name)
  {
    i := 0;
    while !DeclaresName(attrs[i], name)
      invariant i < |attrs| && forall j | 0 <= j < i :: !DeclaresName(attrs[j], name)
      invariant exists k :: i <= k < |attrs| && DeclaresName(attrs[k], name)
      decreases |attrs| - i
    {
      i := i + 1;
    }
  }

  lemma OrderedSnoc(attrs: seq<(string, Attr)>, steps: seq<Step>, a: (string, Attr))
    requires InFirstOrder(attrs, steps)
    ensures InFirstOrder(attrs + [a], if a.1.StepAttr? then DictPut(steps, a.1.step) else steps)
  {
    hide FirstAt, LastAt, Earlier;
    var more := attrs + [a];
    var n := if a.1.StepAttr? then DictPut(steps, a.1.step) else steps;
    if a.1.StepAttr? {
      DictPutNames(steps, a.1.step);
    }
    forall s | s in n ensures exists i: nat :: LastAt(more, i, s) {
      LastDeclared(attrs, steps, a, s);
    }
    forall i | 0 <= i < |more| && more[i].1.StepAttr? ensures more[i].1.step.name in Names(n) {
      if i < |attrs| {
        assert attrs[i].1.StepAttr?;
      }
    }
    forall x, y | 0 <= x < y < |n| ensures Earlier(more, n[x].name, n[y].name) {
      FirstDeclared(attrs, steps, a, n, x, y);
    }
  }

  lemma LastDeclared(attrs: seq<(string, Attr)>, steps: seq<Step>, a: (string, Attr), s: Step)
    requires InFirstOrder(attrs, steps)
    requires s in if a.1.StepAttr? then DictPut(steps, a.1.step) else steps
    ensures exists i: nat :: LastAt(attrs + [a], i, s)
  {
    if a.1 == StepAttr(s) {
      assert LastAt(attrs + [a], |attrs|, s);
    } else {
      assert s in steps;
      var i: nat :| LastAt(attrs, i, s);
      LastStays(attrs, a, i, s);
    }
  }

  lemma EarlierStays(attrs: seq<(string, Attr)>, a: (string, Attr), x: string, y: string)
    requires Earlier(attrs, x, y)
    ensures Earlier(attrs + [a], x, y)
  {
    hide FirstAt;
    var i: nat, j: nat :| i < j && FirstAt(attrs, i, x) && FirstAt(attrs, j, y);
    FirstStays(attrs, a, i, x);
    FirstStays(attrs, a, j, y);
  }

  /** A name declared already is declared before one that is new. */
  lemma NewIsLast(attrs: seq<(string, Attr)>, a: (string, Attr), l: nat, x: string, y: string)
    requires l < |attrs| && DeclaresName(attrs[l], x) && DeclaresName(a, y)
    requires forall k | 0 <= k < |attrs| :: !DeclaresName(attrs[k], y)
    ensures Earlier(attrs + [a], x, y)
  {
    var i := FirstExists(attrs, x);
    FirstStays(attrs, a, i, x);
    assert FirstAt(attrs + [a], |attrs|, y);
  }

  lemma FirstDeclared(attrs: seq<(string, Attr)>, steps: seq<Step>, a: (string, Attr), n: seq<Step>, x: nat, y: nat)
    requires InFirstOrder(attrs, steps) && n == if a.1.StepAttr? then DictPut(steps, a.1.step) else steps
    requires x < y < |n|
    ensures Earlier(attrs + [a], n[x].name, n[y].name)
  {
    hide Earlier, FirstAt;
    if y < |steps| {
      assert n[x].name == steps[x].name && n[y].name == steps[y].name;
      EarlierStays(attrs, a, steps[x].name, steps[y].name);
    } else {
      assert n == steps + [a.1.step] && n[x] == steps[x] && n[x] in steps;
      var l: nat :| LastAt(attrs, l, steps[x]);
      NewIsLast(attrs, a, l, steps[x].name, a.1.step.name);
    }
  }

  /** A class has each step its namespace declares, as it is declared last, in the order in which their names
      appear first. */
  lemma {:induction false} NamespaceOrder(attrs: seq<(string, Attr)>)
    ensures InFirstOrder(attrs, Declared(attrs))
  {
    hide InFirstOrder, DictPut;
    if attrs == [] {
      NothingInOrder(attrs);
    } else {
      var n := |attrs| - 1;
      NamespaceOrder(attrs[..n]);
      assert attrs == attrs[..n] + [attrs[n]];
      OrderedSnoc(attrs[..n], Declared(attrs[..n]), attrs[n]);
    }
  }

  lemma NothingInOrder(attrs: seq<(string, Attr)>)
    requires attrs == []
    ensures InFirstOrder(attrs, [])
  {
  }

  lemma {:induction false} LookupLast(attrs: seq<(string, Attr)>, key: string, i: nat)
    requires i < |attrs| && attrs[i].0 == key && forall k | i < k < |attrs| :: attrs[k].0 != key
    ensures Lookup(attrs, key) == attrs[i].1
    decreases |attrs|
  {
    if i < |attrs| - 1 {
      LookupLast(attrs[..|attrs| - 1], key, i);
    }
  }

  /** The entry of a class: the first step where the namespace says nothing, a step's name where it gives one;
      anything else is no entry. */
  lemma EntryTells(attrs: seq<(string, Attr)>, steps: seq<Step>)
    requires steps != []
    ensures (forall k | 0 <= k < |attrs| :: attrs[k].0 != "entry_step") ==>
      EntryChoice(attrs, steps) == Some(steps[0].name)
    ensures forall i: nat | i < |attrs| && attrs[i].0 == "entry_step"
      && (forall k | i < k < |attrs| :: attrs[k].0 != "entry_step") ::
      EntryChoice(attrs, steps) ==
        match attrs[i].1
        case NoneAttr => Some(steps[0].name)
        case NameAttr(n) => if exists s | s in steps :: s.name == n then Some(n) else None
        case StepAttr(_) => None
  {
    hide Lookup;
    if forall k | 0 <= k < |attrs| :: attrs[k].0 != "entry_step" {
      NeverBound(attrs, "entry_step");
    }
    forall i: nat | i < |attrs| && attrs[i].0 == "entry_step"
      && (forall k | i < k < |attrs| :: attrs[k].0 != "entry_step")
      ensures Lookup(attrs, "entry_step") == attrs[i].1
    {
      LookupLast(attrs, "entry_step", i);
    }
  }

  lemma {:induction false} NeverBound(attrs: seq<(string, Attr)>, key: string)
    requires forall k | 0 <= k < |attrs| :: attrs[k].0 != key
    ensures Lookup(attrs, key) == NoneAttr
  {
    if attrs != [] {
      NeverBound(attrs[..|attrs| - 1], key);
    }
  }
}
