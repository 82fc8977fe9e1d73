/** Lists of identifiers, as the stores index them. */
module Sequences {

  function AddOnce(values: seq<string>, v: string): seq<string> {
    if v in values then values else values + [v]
  }

  /** Texts with a colon between each two of them. */
  function Joined(parts: seq<string>): string {
    if parts == [] then "" else if |parts| == 1 then parts[0] else parts[0] + ":" + Joined(parts[1..])
  }

  lemma JoinedTwo(a: string, b: string)
    ensures Joined([a, b]) == a + ":" + b
  {
    assert [a, b][1..] == [b];
  }

  lemma JoinedMore(a: string, rest: seq<string>)
    requires rest != []
    ensures Joined([a] + rest) == a + ":" + Joined(rest)
  {
    assert ([a] + rest)[1..] == rest;
  }

  function Only(v: string, kept: bool): seq<string> {
    if kept then [v] else []
  }

  /** The elements that satisfy a membership test, in order. */
  function Keep(values: seq<string>, valid: set<string>): (r: seq<string>)
    ensures forall v :: v in r <==> v in values && v in valid
  {
    if values == [] then []
    else if values[0] in valid then [values[0]] + Keep(values[1..], valid)
    else Keep(values[1..], valid)
  }

  function Without(values: seq<string>, v: string): (r: seq<string>)
    ensures forall w :: w in r <==> w in values && w != v
  {
    if values == [] then []
    else if values[0] == v then Without(values[1..], v)
    else [values[0]] + Without(values[1..], v)
  }

  ghost predicate NoDuplicates(ids: seq<string>) {
    forall i, j | 0 <= i < j < |ids| :: ids[i] != ids[j]
  }

  lemma {:induction false} KeepLength(values: seq<string>, valid: set<string>)
    ensures |Keep(values, valid)| <= |values|
    ensures |Keep(values, valid)| == |values| <==> Keep(values, valid) == values
  {
    if values != [] {
      KeepLength(values[1..], valid);
      assert values == [values[0]] + values[1..];
    }
  }

  lemma KeepUnfolds(values: seq<string>, valid: set<string>)
    ensures Keep(values, valid) ==
      if values == [] then [] else Only(values[0], values[0] in valid) + Keep(values[1..], valid)
  {
  }

  lemma {:induction false} KeepSnoc(values: seq<string>, v: string, valid: set<string>)
    ensures Keep(values + [v], valid) == Keep(values, valid) + (if v in valid then [v] else [])
  {
    if values == [] {
      assert [] + [v] == [v];
    } else {
      assert (values + [v])[1..] == values[1..] + [v];
      KeepSnoc(values[1..], v, valid);
    }
  }

  lemma {:induction false} WithoutSnoc(values: seq<string>, v: string, w: string)
    ensures Without(values + [v], w) == Without(values, w) + (if v != w then [v] else [])
  {
    if values == [] {
      assert [] + [v] == [v];
    } else {
      assert (values + [v])[1..] == values[1..] + [v];
      WithoutSnoc(values[1..], v, w);
    }
  }

  lemma {:induction false} KeepTwice(values: seq<string>, valid: set<string>, also: set<string>)
    ensures Keep(Keep(values, valid), also) == Keep(values, valid * also)
  {
    if values != [] {
      KeepTwice(values[1..], valid, also);
      assert ([values[0]] + Keep(values[1..], valid))[1..] == Keep(values[1..], valid);
    }
  }

  lemma {:induction false} KeepAll(values: seq<string>, valid: set<string>)
    requires forall v | v in values :: v in valid
    ensures Keep(values, valid) == values
  {
    if values != [] {
      assert values == [values[0]] + values[1..];
      KeepAll(values[1..], valid);
    }
  }

  /** Keep depends only on the members of the list. */
  lemma {:induction false} KeepCongruent(values: seq<string>, a: set<string>, b: set<string>)
    requires forall v | v in values :: v in a <==> v in b
    ensures Keep(values, a) == Keep(values, b)
  {
    if values != [] {
      assert values == [values[0]] + values[1..];
      KeepCongruent(values[1..], a, b);
    }
  }

  lemma {:induction false} WithoutIsKeep(values: seq<string>, v: string, valid: set<string>)
    requires forall w | w in values && w != v :: w in valid
    requires v !in valid
    ensures Without(values, v) == Keep(values, valid)
  {
    if values != [] {
      assert values == [values[0]] + values[1..];
      WithoutIsKeep(values[1..], v, valid);
    }
  }

  lemma {:induction false} KeepDistinct(values: seq<string>, valid: set<string>)
    requires NoDuplicates(values)
    ensures NoDuplicates(Keep(values, valid))
  {
    if values != [] {
      assert values == [values[0]] + values[1..];
      KeepDistinct(values[1..], valid);
      assert values[0] !in Keep(values[1..], valid);
    }
  }
}
