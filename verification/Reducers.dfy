/** The five channel reducers and their registry (governai/runtime/reducers.py). */
module Reducers {
  import opened Prelude
  import opened Values

  // None is the TypeError a reducer raises; an absent channel reads as Null.
  function Replace(current: Value, update: Value): Option<Value> {
    Some(update)
  }

  function Merge(current: Value, update: Value): Option<Value> {
    if update.Dict? then Some(Dict((if current.Dict? then current.entries else map[]) + update.entries)) else None
  }

  /** An update that is no list is one item. */
  function Items(update: Value): seq<Value> {
    if update.List? then update.items else [update]
  }

  function Append(current: Value, update: Value): Option<Value> {
    if !current.Null? && !current.List? then None
    else Some(List((if current.Null? then [] else current.items) + Items(update)))
  }

  function Clear(current: Value, update: Value): Option<Value> {
    Some(Null)
  }

  /** A Python int; True and False count as 1 and 0. */
  function IndexOf(v: Value): Option<int> {
    match v
    case Num(n) => Some(n)
    case Bool(b) => Some(if b then 1 else 0)
    case _ => None
  }

  /** `int` of each item, by `parse`; None when one of them raises. */
  function Indexes(items: seq<Value>, parse: Value -> Option<int>): Option<set<int>> {
    if exists i | 0 <= i < |items| :: parse(items[i]).None? then None
    else Some(set i | 0 <= i < |items| :: parse(items[i]).GetOr(0))
  }

  /** The positions of a list an update names. */
  function Positions(update: Value, parse: Value -> Option<int>): Option<set<int>> {
    if IndexOf(update).Some? then Some({IndexOf(update).value})
    else if update.List? then Indexes(update.items, parse)
    else None
  }

  /** The keys of a dict an update names. */
  function NamedKeys(update: Value, str: Value -> string): Option<set<string>> {
    if update.Text? then Some({update.text})
    else if update.List? then Some(set i | 0 <= i < |update.items| :: str(update.items[i]))
    else None
  }

  /** The items whose position, counted from an offset, is not in a set. */
  function Outside(items: seq<Value>, offset: int, gone: set<int>): seq<Value> {
    if items == [] then []
    else (if offset in gone then [] else [items[0]]) + Outside(items[1..], offset + 1, gone)
  }

  function Prune(current: Value, update: Value, str: Value -> string, parse: Value -> Option<int>): Option<Value> {
    match current
    case Dict(entries) =>
      (match NamedKeys(update, str)
       case None => None
       case Some(keys) => Some(Dict(entries - keys)))
    case List(items) =>
      (match Positions(update, parse)
       case None => None
       case Some(gone) => Some(List(Outside(items, 0, gone))))
    case _ => Some(current)
  }

  datatype Reducer = Replacing | Merging | Appending | Clearing | Pruning | Unknown

  /** The reducers a registry starts with, by name. */
  function Resolve(name: string): Reducer {
    if name == "replace" then Replacing
    else if name == "merge" then Merging
    else if name == "append" then Appending
    else if name == "clear" then Clearing
    else if name == "prune" then Pruning
    else Unknown
  }

  /** None is what the reducer raises, or the KeyError of an unknown name. */
  function Reduce(name: string, current: Value, update: Value, str: Value -> string, parse: Value -> Option<int>)
    : Option<Value>
  {
    match Resolve(name)
    case Replacing => Replace(current, update)
    case Merging => Merge(current, update)
    case Appending => Append(current, update)
    case Clearing => Clear(current, update)
    case Pruning => Prune(current, update, str, parse)
    case Unknown => None
  }

  /** _channel_reducer over the names a flow configures: a channel without one is replaced. */
  function Configured(names: map<string, string>, str: Value -> string, parse: Value -> Option<int>): (string, Value,
                      Value) -> Option<Value>
  {
    (channel, current, update) => Reduce(NameOf(names, channel), current, update, str, parse)
  }

  function NameOf(names: map<string, string>, channel: string): string {
    if channel in names then names[channel] else "replace"
  }

  // ---- laws ----

  /** Two appends, of lists or of single items, are one append of all their items; both raise or neither. */
  lemma AppendsJoin(current: Value, a: Value, b: Value)
    ensures match Append(current, a)
      case None => Append(current, List(Items(a) + Items(b))).None?
      case Some(v) => Append(v, b).Some? && Append(v, b) == Append(current, List(Items(a) + Items(b)))
  {
    var base := if current.List? then current.items else [];
    assert (base + Items(a)) + Items(b) == base + (Items(a) + Items(b));
  }

  /** Merging is associative: two updates one by one are their merge at once; a second update that is no
      dict raises either way. */
  lemma MergesJoin(current: Value, a: Value, b: Value)
    requires a.Dict?
    ensures Merge(current, a).Some?
    ensures Merge(Merge(current, a).value, b) == if b.Dict? then Merge(current, Merge(a, b).value) else None
  {
    var base := if current.Dict? then current.entries else map[];
    if b.Dict? {
      assert (base + a.entries) + b.entries == base + (a.entries + b.entries);
    }
  }

  /** Pruning a list keeps the positions not named, in order: the item at such a position comes after
      exactly the items kept before it. */
  lemma PrunedAt(items: seq<Value>, update: Value, str: Value -> string, parse: Value -> Option<int>, i: nat)
    requires i < |items| && Positions(update, parse).Some? && i !in Positions(update, parse).value
    ensures
      var pruned := Prune(List(items), update, str, parse);
      var before := Prune(List(items[..i]), update, str, parse);
      && pruned.Some? && pruned.value.List? && before.Some? && before.value.List?
      && |before.value.items| < |pruned.value.items| && pruned.value.items[|before.value.items|] == items[i]
  {
    OutsideAt(items, 0, Positions(update, parse).value, i);
  }

  /** And nothing else: what goes is as many items as there are positions named in the list. */
  lemma PrunedCount(items: seq<Value>, update: Value, str: Value -> string, parse: Value -> Option<int>)
    requires Positions(update, parse).Some?
    ensures
      var pruned := Prune(List(items), update, str, parse);
      && pruned.Some? && pruned.value.List?
      && |pruned.value.items| + |set i | 0 <= i < |items| && i in Positions(update, parse).value| == |items|
  {
    OutsideCount(items, 0, Positions(update, parse).value);
  }

  /** Pruning a dict twice is pruning it of both updates' keys, in either order. */
  lemma PrunesCommute(entries: map<string, Value>, a: Value, b: Value, str: Value -> string,
                      parse: Value -> Option<int>)
    requires NamedKeys(a, str).Some? && NamedKeys(b, str).Some?
    ensures
      var once := Prune(Dict(entries), a, str, parse);
      && once.Some?
         && Prune(once.value, b, str, parse)
            == Some(Dict(entries - (NamedKeys(a, str).value + NamedKeys(b, str).value)))
      && Prune(Prune(Dict(entries), b, str, parse).value, a, str, parse) == Prune(once.value, b, str, parse)
  {
    var x, y := NamedKeys(a, str).value, NamedKeys(b, str).value;
    assert (entries - x) - y == entries - (x + y);
    assert (entries - y) - x == entries - (x + y);
  }

  lemma {:induction false} OutsideAt(items: seq<Value>, offset: int, gone: set<int>, i: nat)
    requires i < |items| && offset + i !in gone
    ensures
      var before := Outside(items[..i], offset, gone);
      |before| < |Outside(items, offset, gone)| && Outside(items, offset, gone)[|before|] == items[i]
  {
    if i > 0 {
      OutsideAt(items[1..], offset + 1, gone, i - 1);
      assert items[..i][1..] == items[1..][..i - 1];
    }
  }

  lemma {:induction false} OutsideCount(items: seq<Value>, offset: int, gone: set<int>)
    ensures |Outside(items, offset, gone)| + |set i | offset <= i < offset + |items| && i in gone| == |items|
  {
    var hit := set i | offset <= i < offset + |items| && i in gone;
    if items != [] {
      OutsideCount(items[1..], offset + 1, gone);
      var rest := set i | offset + 1 <= i < offset + 1 + |items[1..]| && i in gone;
      assert hit == rest + (if offset in gone then {offset} else {});
    } else {
      assert hit == {};
    }
  }

  // ---- two updates as one ----

  /** The update that does at once what two updates of a channel do one after the other; pruning a list
      has none, since positions shift. */
  function Joined(name: string, a: Value, b: Value): Option<Value> {
    match Resolve(name)
    case Replacing => Some(b)
    case Clearing => Some(b)
    case Merging => if a.Dict? && b.Dict? then Some(Dict(a.entries + b.entries)) else None
    case Appending => Some(List(Items(a) + Items(b)))
    case _ => None
  }

  /** The two reductions in turn; None when either raises. */
  function ReduceInTurn(name: string, current: Value, a: Value, b: Value, str: Value -> string,
                        parse: Value -> Option<int>): Option<Value>
  {
    match Reduce(name, current, a, str, parse)
    case None => None
    case Some(v) => Reduce(name, v, b, str, parse)
  }

  lemma MergesFold(current: Value, a: Value, b: Value)
    ensures Merge(current, if a.Dict? && b.Dict? then Dict(a.entries + b.entries) else Null) ==
      match Merge(current, a)
      case None => None
      case Some(v) => Merge(v, b)
  {
    if a.Dict? {
      MergesJoin(current, a, b);
    }
  }

  lemma JoinedAppends(name: string, current: Value, a: Value, b: Value, str: Value -> string,
                      parse: Value -> Option<int>)
    requires Resolve(name).Appending?
    ensures Reduce(name, current, Joined(name, a, b).GetOr(Null), str, parse)
      == ReduceInTurn(name, current, a, b, str, parse)
  {
    hide Resolve, Append, Items;
    AppendsJoin(current, a, b);
  }

  lemma JoinedMerges(name: string, current: Value, a: Value, b: Value, str: Value -> string,
                     parse: Value -> Option<int>)
    requires Resolve(name).Merging?
    ensures Reduce(name, current, Joined(name, a, b).GetOr(Null), str, parse)
      == ReduceInTurn(name, current, a, b, str, parse)
  {
    hide Resolve, Merge;
    MergesFold(current, a, b);
  }

  lemma JoinedOthers(name: string, current: Value, a: Value, b: Value, str: Value -> string,
                     parse: Value -> Option<int>)
    requires Resolve(name).Replacing? || Resolve(name).Clearing? || Resolve(name).Unknown?
    ensures Reduce(name, current, Joined(name, a, b).GetOr(Null), str, parse)
      == ReduceInTurn(name, current, a, b, str, parse)
  {
    hide Resolve;
  }

  /** Where there is no joined update, a merge or an unknown name, Null raises as the two updates do. */
  lemma JoinedReduces(name: string, current: Value, a: Value, b: Value, str: Value -> string,
                      parse: Value -> Option<int>)
    requires !Resolve(name).Pruning?
    ensures Reduce(name, current, Joined(name, a, b).GetOr(Null), str, parse)
      == ReduceInTurn(name, current, a, b, str, parse)
  {
    hide Resolve, Reduce, Joined, ReduceInTurn;
    match Resolve(name)
    case Appending => JoinedAppends(name, current, a, b, str, parse);
    case Merging => JoinedMerges(name, current, a, b, str, parse);
    case _ => JoinedOthers(name, current, a, b, str, parse);
  }
}

/** State updates of a run's channels through the reducers its flow configures. */
module ChannelUpdates {
  import opened Prelude
  import opened Values
  import opened Reducers
  import opened Lifecycle

  /** Two updates as one, channel by channel. */
  function JoinedUpdate(names: map<string, string>, a: map<string, Value>, b: map<string, Value>): map<string, Value> {
    map c | c in a.Keys + b.Keys ::
      if c in a && c in b then Joined(NameOf(names, c), a[c], b[c]).GetOr(Null) else if c in a then a[c] else b[c]
  }

  /** What an applied update leaves in each channel. */
  lemma AppliedAt(setup: Setup, channels: map<string, Value>, update: map<string, Value>, c: string)
    requires ApplyUpdate(setup, channels, update).Some?
    ensures
      var n := ApplyUpdate(setup, channels, update).value;
      if c in update then
        var v := setup.reduce(c, Get(channels, c), update[c]);
        v.Some? && c in n && n[c] == v.value
      else (c in n <==> c in channels) && (c in n ==> n[c] == channels[c])
  {
  }

  lemma Applies(setup: Setup, channels: map<string, Value>, update: map<string, Value>)
    ensures ApplyUpdate(setup, channels, update).Some? <==>
      forall c | c in update :: setup.reduce(c, Get(channels, c), update[c]).Some?
  {
  }

  /** Two updates one after the other; None when a reducer raises in either. */
  function ApplyInTurn(setup: Setup, channels: map<string, Value>, a: map<string, Value>, b: map<string, Value>)
    : Option<map<string, Value>>
  {
    match ApplyUpdate(setup, channels, a)
    case None => None
    case Some(mid) => ApplyUpdate(setup, mid, b)
  }

  /** One channel of a joined update. */
  lemma JoinedAt(setup: Setup, names: map<string, string>, str: Value -> string, parse: Value -> Option<int>,
                 current: Value, a: map<string, Value>, b: map<string, Value>, c: string)
    requires setup.reduce == Configured(names, str, parse)
    requires c in a && c in b ==> !Resolve(NameOf(names, c)).Pruning?
    requires c in a || c in b
    ensures
      var first := if c in a then setup.reduce(c, current, a[c]) else Some(current);
      setup.reduce(c, current, JoinedUpdate(names, a, b)[c]) ==
        if first.Some? && c in b then setup.reduce(c, first.value, b[c]) else first
  {
    hide Reduce, Joined, Resolve;
    if c in a && c in b {
      JoinedReduces(NameOf(names, c), current, a[c], b[c], str, parse);
    }
  }

  /** The joined update raises at a channel where the first of the two does, or the second after it. */
  lemma JoinedRaises(setup: Setup, names: map<string, string>, str: Value -> string, parse: Value -> Option<int>,
                     channels: map<string, Value>, a: map<string, Value>, b: map<string, Value>)
    requires setup.reduce == Configured(names, str, parse)
    requires forall c | c in a && c in b :: !Resolve(NameOf(names, c)).Pruning?
    requires ApplyInTurn(setup, channels, a, b).None?
    ensures ApplyUpdate(setup, channels, JoinedUpdate(names, a, b)).None?
  {
    hide ApplyUpdate, Configured, NameOf, Joined, Resolve;
    Applies(setup, channels, JoinedUpdate(names, a, b));
    Applies(setup, channels, a);
    match ApplyUpdate(setup, channels, a)
    case None =>
      var c :| c in a && setup.reduce(c, Get(channels, c), a[c]).None?;
      JoinedAt(setup, names, str, parse, Get(channels, c), a, b, c);
    case Some(mid) =>
      Applies(setup, mid, b);
      var c :| c in b && setup.reduce(c, Get(mid, c), b[c]).None?;
      AppliedAt(setup, channels, a, c);
      JoinedAt(setup, names, str, parse, Get(channels, c), a, b, c);
  }

  /** And it leaves what the two leave. */
  lemma JoinedLeaves(setup: Setup, names: map<string, string>, str: Value -> string, parse: Value -> Option<int>,
                     channels: map<string, Value>, a: map<string, Value>, b: map<string, Value>)
    requires setup.reduce == Configured(names, str, parse)
    requires forall c | c in a && c in b :: !Resolve(NameOf(names, c)).Pruning?
    requires ApplyInTurn(setup, channels, a, b).Some?
    ensures ApplyUpdate(setup, channels, JoinedUpdate(names, a, b)) == ApplyInTurn(setup, channels, a, b)
  {
    hide ApplyUpdate, Configured, NameOf, Joined, Resolve;
    var mid := ApplyUpdate(setup, channels, a).value;
    var both, end := JoinedUpdate(names, a, b), ApplyUpdate(setup, mid, b).value;
    assert both.Keys == a.Keys + b.Keys;
    forall c | c in both ensures c in end && setup.reduce(c, Get(channels, c), both[c]) == Some(end[c]) {
      AppliedAt(setup, channels, a, c);
      AppliedAt(setup, mid, b, c);
      JoinedAt(setup, names, str, parse, Get(channels, c), a, b, c);
    }
    Applies(setup, channels, both);
    var n := ApplyUpdate(setup, channels, both).value;
    forall c ensures (c in n <==> c in end) && (c in n ==> n[c] == end[c]) {
      AppliedAt(setup, channels, both, c);
      AppliedAt(setup, channels, a, c);
      AppliedAt(setup, mid, b, c);
    }
    assert n == end;
  }

  /** The updates of two commands, one after the other, do to the channels what one update does that joins
      them, unless both prune the same channel: it raises exactly when one of the two raises, and otherwise
      leaves the same channels. */
  lemma UpdatesJoin(setup: Setup, names: map<string, string>, str: Value -> string, parse: Value -> Option<int>,
                    channels: map<string, Value>, a: map<string, Value>, b: map<string, Value>)
    requires setup.reduce == Configured(names, str, parse)
    requires forall c | c in a && c in b :: !Resolve(NameOf(names, c)).Pruning?
    ensures ApplyUpdate(setup, channels, JoinedUpdate(names, a, b)) == ApplyInTurn(setup, channels, a, b)
  {
    hide ApplyUpdate, ApplyInTurn, JoinedUpdate, Configured, NameOf, Resolve;
    if ApplyInTurn(setup, channels, a, b).Some? {
      JoinedLeaves(setup, names, str, parse, channels, a, b);
    } else {
      JoinedRaises(setup, names, str, parse, channels, a, b);
    }
  }

  // ---- what an update leaves, by the names configured ----

  /** The reducer's name for a channel. */
  function NameFor(names: map<string, string>, c: string): string {
    if c in names then names[c] else "replace"
  }

  /** The positions of a list, and the keys of a dict, that a prune names. */
  ghost predicate NamesPosition(update: Value, parse: Value -> Option<int>, i: int) {
    || update == Num(i) || (update == Bool(true) && i == 1) || (update == Bool(false) && i == 0)
    || (update.List? && exists j | 0 <= j < |update.items| :: parse(update.items[j]) == Some(i))
  }

  ghost predicate NamesKey(update: Value, str: Value -> string, key: string) {
    update == Text(key) || (update.List? && exists j | 0 <= j < |update.items| :: str(update.items[j]) == key)
  }

  /** Some items in order: those at the positions an update does not name. */
  ghost predicate PrunedList(items: seq<Value>, update: Value, parse: Value -> Option<int>, after: seq<Value>) {
    && |after| == |set j | 0 <= j < |items| && !NamesPosition(update, parse, j)|
    && forall i | 0 <= i < |items| && !NamesPosition(update, parse, i) ::
      var before := set j | 0 <= j < i && !NamesPosition(update, parse, j);
      |before| < |after| && after[|before|] == items[i]
  }

  ghost predicate PrunedDict(entries: map<string, Value>, update: Value, str: Value -> string,
                             after: map<string, Value>)
  {
    forall key :: (key in after <==> key in entries && !NamesKey(update, str, key))
                  && (key in after ==> after[key] == entries[key])
  }

  ghost predicate MergedDict(entries: map<string, Value>, more: map<string, Value>, after: map<string, Value>) {
    forall key :: (key in after <==> key in entries || key in more)
                  && (key in after ==> after[key] == if key in more then more[key] else entries[key])
  }

  /** What a channel holds after the reducer of this name; None if the reducer raises. */
  ghost predicate LeftBy(name: string, current: Value, update: Value, str: Value -> string,
                         parse: Value -> Option<int>, after: Option<Value>)
  {
    if name == "replace" then after == Some(update)
    else if name == "clear" then after == Some(Null)
    else if name == "append" then
      if current == Null || current.List? then
        after == Some(List((if current.List? then current.items else [])
                           + (if update.List? then update.items else [update])))
      else after == None
    else if name == "merge" then
      if update.Dict? then
        && after.Some? && after.value.Dict?
        && MergedDict(if current.Dict? then current.entries else map[], update.entries, after.value.entries)
      else after == None
    else if name == "prune" then
      match current
      case Dict(entries) =>
        if update.Text? || update.List?
        then after.Some? && after.value.Dict? && PrunedDict(entries, update, str, after.value.entries)
        else after == None
      case List(items) =>
        if update.Num? || update.Bool?
           || (update.List? && forall j | 0 <= j < |update.items| :: parse(update.items[j]) != None)
        then after.Some? && after.value.List? && PrunedList(items, update, parse, after.value.items)
        else after == None
      case _ => after == Some(current)
    else after == None
  }

  lemma PositionsNamed(update: Value, parse: Value -> Option<int>)
    ensures Positions(update, parse).Some? <==>
      update.Num? || update.Bool?
      || (update.List? && forall j | 0 <= j < |update.items| :: parse(update.items[j]) != None)
    ensures Positions(update, parse).Some? ==>
      forall i: int :: i in Positions(update, parse).value <==> NamesPosition(update, parse, i)
  {
  }

  lemma KeysNamed(update: Value, str: Value -> string)
    ensures NamedKeys(update, str).Some? <==> update.Text? || update.List?
    ensures NamedKeys(update, str).Some? ==>
      forall key :: key in NamedKeys(update, str).value <==> NamesKey(update, str, key)
  {
  }

  /** The positions from lo on, below hi, that a set does not have. */
  function Others(lo: int, hi: int, gone: set<int>): set<int> {
    set i | lo <= i < hi && i !in gone
  }

  lemma OthersSplit(lo: int, hi: int, gone: set<int>)
    requires lo < hi
    ensures |Others(lo, hi, gone)| == (if lo in gone then 0 else 1) + |Others(lo + 1, hi, gone)|
  {
    var rest := Others(lo + 1, hi, gone);
    assert Others(lo, hi, gone) == (if lo in gone then {} else {lo}) + rest;
    assert lo !in rest;
  }

  /** As many items are kept as there are positions not named. */
  lemma {:induction false} KeptCount(items: seq<Value>, offset: int, gone: set<int>)
    ensures |Outside(items, offset, gone)| == |Others(offset, offset + |items|, gone)|
  {
    if items == [] {
      assert Others(offset, offset, gone) == {};
    } else {
      hide Others;
      KeptCount(items[1..], offset + 1, gone);
      OthersSplit(offset, offset + |items|, gone);
    }
  }

  lemma KeptBefore(items: seq<Value>, update: Value, parse: Value -> Option<int>, i: nat)
    requires i <= |items| && Positions(update, parse).Some?
    ensures |Outside(items[..i], 0, Positions(update, parse).value)|
      == |set j | 0 <= j < i && !NamesPosition(update, parse, j)|
  {
    hide Positions, NamesPosition, Outside;
    var gone := Positions(update, parse).value;
    PositionsNamed(update, parse);
    KeptCount(items[..i], 0, gone);
    assert Others(0, |items[..i]|, gone) == set j | 0 <= j < i && !NamesPosition(update, parse, j);
  }

  lemma OutsidePrunes(items: seq<Value>, update: Value, parse: Value -> Option<int>)
    requires Positions(update, parse).Some?
    ensures PrunedList(items, update, parse, Outside(items, 0, Positions(update, parse).value))
  {
    hide Positions, NamesPosition, Outside;
    var gone := Positions(update, parse).value;
    PositionsNamed(update, parse);
    assert items[..|items|] == items;
    KeptBefore(items, update, parse, |items|);
    forall i | 0 <= i < |items| && !NamesPosition(update, parse, i)
      ensures
        var before := set j | 0 <= j < i && !NamesPosition(update, parse, j);
        |before| < |Outside(items, 0, gone)| && Outside(items, 0, gone)[|before|] == items[i]
    {
      KeptBefore(items, update, parse, i);
      OutsideAt(items, 0, gone, i);
    }
  }

  lemma PruneLeaves(current: Value, update: Value, str: Value -> string, parse: Value -> Option<int>)
    ensures LeftBy("prune", current, update, str, parse, Prune(current, update, str, parse))
  {
    hide Positions, NamedKeys, PrunedList, Outside, NamesPosition, NamesKey;
    PositionsNamed(update, parse);
    KeysNamed(update, str);
    if current.List? && Positions(update, parse).Some? {
      OutsidePrunes(current.items, update, parse);
    }
  }

  lemma ReduceLeaves(name: string, current: Value, update: Value, str: Value -> string, parse: Value -> Option<int>)
    ensures LeftBy(name, current, update, str, parse, Reduce(name, current, update, str, parse))
  {
    hide Prune, PrunedList, PrunedDict;
    PruneLeaves(current, update, str, parse);
  }

  lemma ReductionLeaves(setup: Setup, names: map<string, string>, str: Value -> string, parse: Value -> Option<int>,
                        channels: map<string, Value>, c: string, v: Value)
    requires setup.reduce == Configured(names, str, parse)
    ensures LeftBy(NameFor(names, c), if c in channels then channels[c] else Null, v, str, parse,
      setup.reduce(c, Get(channels, c), v))
  {
    hide LeftBy;
    ReduceLeaves(NameFor(names, c), Get(channels, c), v, str, parse);
    assert NameFor(names, c) == NameOf(names, c);
    assert setup.reduce(c, Get(channels, c), v) == Configured(names, str, parse)(c, Get(channels, c), v);
  }

  /** An update raises exactly when the reducer of one of its channels does; otherwise every channel it
      names holds what its reducer leaves, and every other channel what it held. */
  lemma UpdateLeaves(setup: Setup, names: map<string, string>, str: Value -> string, parse: Value -> Option<int>,
                     channels: map<string, Value>, update: map<string, Value>)
    requires setup.reduce == Configured(names, str, parse)
    ensures
      match ApplyUpdate(setup, channels, update)
      case None =>
        exists c | c in update ::
          LeftBy(NameFor(names, c), if c in channels then channels[c] else Null, update[c], str, parse, None)
      case Some(n) =>
        && n.Keys == channels.Keys + update.Keys
        && forall c | c in n ::
          if c in update
          then LeftBy(NameFor(names, c), if c in channels then channels[c] else Null, update[c], str, parse, Some(n[c]))
          else n[c] == channels[c]
  {
    hide ApplyUpdate, Reduce, LeftBy;
    Applies(setup, channels, update);
    forall c | c in update
      ensures LeftBy(NameFor(names, c), if c in channels then channels[c] else Null, update[c], str, parse,
          setup.reduce(c, Get(channels, c), update[c]))
    {
      ReductionLeaves(setup, names, str, parse, channels, c, update[c]);
    }
    if ApplyUpdate(setup, channels, update).Some? {
      forall c ensures c in ApplyUpdate(setup, channels, update).value <==> c in channels || c in update {
        AppliedAt(setup, channels, update, c);
      }
      forall c | c in ApplyUpdate(setup, channels, update).value && c in update
        ensures setup.reduce(c, Get(channels, c), update[c]) == Some(ApplyUpdate(setup, channels, update).value[c])
      {
        AppliedAt(setup, channels, update, c);
      }
      forall c | c in ApplyUpdate(setup, channels, update).value && c !in update
        ensures ApplyUpdate(setup, channels, update).value[c] == channels[c]
      {
        AppliedAt(setup, channels, update, c);
      }
    } else {
      var c :| c in update && setup.reduce(c, Get(channels, c), update[c]).None?;
      assert LeftBy(NameFor(names, c), if c in channels then channels[c] else Null, update[c], str, parse, None);
    }
  }

  /** Channels without a reducer of their own, or with the one named "replace", take the update's values. */
  lemma UnnamedReplace(setup: Setup, names: map<string, string>, str: Value -> string, parse: Value -> Option<int>,
                       channels: map<string, Value>, update: map<string, Value>)
    requires setup.reduce == Configured(names, str, parse)
    requires forall c | c in update :: c !in names || names[c] == "replace"
    ensures ApplyUpdate(setup, channels, update) == Some(channels + update)
  {
    hide ApplyUpdate;
    UpdateLeaves(setup, names, str, parse, channels, update);
    if ApplyUpdate(setup, channels, update).Some? {
      assert ApplyUpdate(setup, channels, update).value == channels + update;
    }
  }

  // ---- an update that raises ----

  /** The reductions of an update's first i + 1 channels, in the order it lists them, all go through. */
  predicate GoThrough(setup: Setup, channels: map<string, Value>, update: map<string, Value>, keys: seq<string>, i: int)
    requires forall k | k in keys :: k in update
  {
    forall j | 0 <= j <= i && j < |keys| :: setup.reduce(keys[j], Get(channels, keys[j]), update[keys[j]]) != None
  }

  /** When a reducer raises, the channels listed before it hold what their reducers leave and all others what
      they held. */
  lemma {:induction false} RaisedHalfway(setup: Setup, channels: map<string, Value>, update: map<string, Value>,
                                         keys: seq<string>, i: nat)
    requires forall k | k in keys :: k in update
    requires forall j, k | 0 <= j < k < |keys| :: keys[j] != keys[k]
    requires i < |keys|
    ensures
      var n := Reached(setup, channels, update, keys);
      var c := keys[i];
      && (GoThrough(setup, channels, update, keys, i) ==>
            c in n && setup.reduce(c, Get(channels, c), update[c]) == Some(n[c]))
      && (!GoThrough(setup, channels, update, keys, i) ==>
            (c in n <==> c in channels) && (c in n ==> n[c] == channels[c]))
    decreases |keys|
  {
    var v := setup.reduce(keys[0], Get(channels, keys[0]), update[keys[0]]);
    if v.Some? {
      var more, rest := channels[keys[0] := v.value], keys[1..];
      if i == 0 {
        ReachedElsewhere(setup, more, update, rest, keys[0]);
      } else {
        RaisedHalfway(setup, more, update, rest, i - 1);
        GoesOn(setup, channels, update, keys, i);
      }
    }
  }

  lemma GoesOn(setup: Setup, channels: map<string, Value>, update: map<string, Value>, keys: seq<string>, i: nat)
    requires forall k | k in keys :: k in update
    requires forall j, k | 0 <= j < k < |keys| :: keys[j] != keys[k]
    requires 0 < i < |keys| && setup.reduce(keys[0], Get(channels, keys[0]), update[keys[0]]).Some?
    ensures
      var v := setup.reduce(keys[0], Get(channels, keys[0]), update[keys[0]]).value;
      GoThrough(setup, channels, update, keys, i) <==>
        GoThrough(setup, channels[keys[0] := v], update, keys[1..], i - 1)
  {
    var v := setup.reduce(keys[0], Get(channels, keys[0]), update[keys[0]]).value;
    var more, rest := channels[keys[0] := v], keys[1..];
    forall j | 0 < j < |keys| ensures rest[j - 1] == keys[j] && Get(more, keys[j]) == Get(channels, keys[j]) {
    }
    if GoThrough(setup, more, update, rest, i - 1) {
      forall j | 0 <= j <= i && j < |keys|
        ensures setup.reduce(keys[j], Get(channels, keys[j]), update[keys[j]]) != None
      {
        if j > 0 {
          assert setup.reduce(rest[j - 1], Get(more, rest[j - 1]), update[rest[j - 1]]) != None;
        }
      }
    }
  }

  lemma {:induction false} ReachedElsewhere(setup: Setup, channels: map<string, Value>, update: map<string, Value>,
                                            keys: seq<string>, c: string)
    requires c !in keys
    ensures
      var n := Reached(setup, channels, update, keys);
      (c in n <==> c in channels) && (c in n ==> n[c] == channels[c])
    decreases |keys|
  {
    if keys != [] {
      assert keys == [keys[0]] + keys[1..];
      if keys[0] !in update {
        ReachedElsewhere(setup, channels, update, keys[1..], c);
      } else {
        var v := setup.reduce(keys[0], Get(channels, keys[0]), update[keys[0]]);
        if v.Some? {
          ReachedElsewhere(setup, channels[keys[0] := v.value], update, keys[1..], c);
        }
      }
    }
  }
}
