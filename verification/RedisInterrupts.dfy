/** The Redis interrupt store, whose index goes stale on a sweep and heals when it is listed, refines
    the in-memory one (governai/runtime/interrupts.py, lines 115-247). */
module RedisInterrupts {
  import opened Prelude
  import opened Sequences
  import opened Interrupts

  // ---- keys ----

  datatype Key = EpochKey(runId: string) | RequestKey(runId: string, id: string) | IndexKey(runId: string)

  datatype Value = Epoch(epoch: int) | Held(request: Request) | Ids(ids: seq<string>)

  /** The database, by the text of the keys. */
  type Db = map<string, Value>

  function Tail(k: Key): string {
    match k
    case EpochKey(_) => "epoch"
    case RequestKey(_, id) => "request:" + id
    case IndexKey(_) => "requests"
  }

  function Head(prefix: string): string {
    prefix + ":run:"
  }

  function Rest(k: Key): string {
    k.runId + ":" + Tail(k)
  }

  function Text(prefix: string, k: Key): string {
    Head(prefix) + Rest(k)
  }

  /** The builders' texts, part by part. */
  lemma KeyTexts(prefix: string, r: string, id: string)
    ensures Text(prefix, EpochKey(r)) == Joined([prefix, "run", r, "epoch"])
    ensures Text(prefix, RequestKey(r, id)) == Joined([prefix, "run", r, "request", id])
    ensures Text(prefix, IndexKey(r)) == Joined([prefix, "run", r, "requests"])
  {
    hide Joined;
    TextJoined(prefix, r, "epoch");
    TextJoined(prefix, r, "requests");
    RequestJoined(prefix, r, id);
  }

  lemma TextJoined(prefix: string, r: string, tail: string)
    ensures Head(prefix) + (r + ":" + tail) == Joined([prefix, "run", r, tail])
  {
    hide Joined;
    JoinedTwo(r, tail);
    RunJoined(prefix, [r, tail]);
    assert [prefix, "run"] + [r, tail] == [prefix, "run", r, tail];
  }

  lemma RequestJoined(prefix: string, r: string, id: string)
    ensures Head(prefix) + (r + ":" + ("request:" + id)) == Joined([prefix, "run", r, "request", id])
  {
    hide Joined;
    JoinedTwo("request", id);
    RequestWord(id);
    JoinedMore(r, ["request", id]);
    assert [r] + ["request", id] == [r, "request", id];
    RunJoined(prefix, [r, "request", id]);
    assert [prefix, "run"] + [r, "request", id] == [prefix, "run", r, "request", id];
  }

  lemma RequestWord(id: string)
    ensures "request:" + id == "request" + ":" + id
  {
    assert "request:" == "request" + ":";
  }

  lemma RunJoined(prefix: string, rest: seq<string>)
    requires rest != []
    ensures Joined([prefix, "run"] + rest) == prefix + ":run:" + Joined(rest)
  {
    JoinedMore("run", rest);
    JoinedMore(prefix, ["run"] + rest);
    assert [prefix] + (["run"] + rest) == [prefix, "run"] + rest;
    assert prefix + ":" + ("run" + ":" + Joined(rest)) == prefix + ":run:" + Joined(rest);
  }

  lemma SameRest(p: string, a: string, b: string)
    requires p + a == p + b
    ensures a == b
  {
    assert (p + a)[|p|..] == a && (p + b)[|p|..] == b;
  }

  const MIDDLE := ":request:"

  predicate MiddleAt(s: string, x: nat) {
    x + |MIDDLE| <= |s| && s[x..x + |MIDDLE|] == MIDDLE
  }

  /** A run id, with the colon the builders put after it, does not hold ":request:". Run ids are uuids
      wherever the runtime makes them. */
  predicate Clean(r: string) {
    forall x | 0 <= x < |r| :: !MiddleAt(r + ":", x)
  }

  /** Where ":request:" has its colons, and that it has no other. */
  lemma MiddleColons(s: string, x: nat)
    requires MiddleAt(s, x)
    ensures x + 8 < |s| && s[x] == s[x + 8] == ':' && forall j | x < j < x + 8 :: s[j] != ':'
  {
    var m := s[x..x + |MIDDLE|];
    assert forall j | x < j < x + 8 :: s[j] == m[j - x];
    assert s[x] == m[0] && s[x + 8] == m[8];
  }

  lemma RestParts(k: Key)
    ensures var s, n := Rest(k), |k.runId|;
      && |s| > n && s[..n] == k.runId && s[n] == ':' && s[n + 1..] == Tail(k) && s[..n + 1] == k.runId + ":"
  {
    hide Tail;
  }

  /** In the rest of a key of a clean run, ":request:" comes no sooner than after the run id, and right
      there in a request key alone. */
  lemma CleanMiddle(k: Key, x: nat)
    requires Clean(k.runId) && MiddleAt(Rest(k), x)
    ensures k.RequestKey? && x >= |k.runId|
  {
    hide Rest, MiddleAt, Tail;
    RestParts(k);
    MiddleColons(Rest(k), x);
    if x < |k.runId| {
      MiddleWithin(Rest(k), k.runId + ":", x);
    }
    MiddleInTail(k, x);
  }

  lemma MiddleWithin(s: string, head: string, x: nat)
    requires MiddleAt(s, x) && head <= s && x + |MIDDLE| <= |head|
    ensures MiddleAt(head, x)
  {
    assert head[x..x + |MIDDLE|] == s[x..x + |MIDDLE|];
  }

  lemma MiddleInTail(k: Key, x: nat)
    requires x >= |k.runId| && MiddleAt(Rest(k), x)
    ensures k.RequestKey?
  {
    hide Rest, MiddleAt;
    RestParts(k);
    MiddleColons(Rest(k), x);
    var n := |k.runId|;
    assert Rest(k)[x + 8] == Tail(k)[x + 7 - n];
  }

  lemma RequestMiddle(k: Key)
    requires k.RequestKey?
    ensures MiddleAt(Rest(k), |k.runId|)
  {
    assert Rest(k) == k.runId + MIDDLE + k.id;
  }

  /** The rests of keys of two clean runs: the shorter run id decides. */
  lemma SameRunId(k: Key, l: Key)
    requires Clean(k.runId) && Clean(l.runId) && Rest(k) == Rest(l) && |k.runId| <= |l.runId|
    ensures k.runId == l.runId
  {
    hide Rest, Tail, MiddleAt, Clean;
    RestParts(k);
    RestParts(l);
    var s, n := Rest(k), |k.runId|;
    if n < |l.runId| {
      if k.RequestKey? {
        RequestMiddle(k);
        CleanMiddle(l, n);
      } else {
        ShortTail(k, l);
      }
    }
  }

  /** Neither "epoch" nor "requests" ends in a colon and a tail. */
  lemma ShortTail(k: Key, l: Key)
    requires !k.RequestKey? && Rest(k) == Rest(l)
    ensures |l.runId| <= |k.runId|
  {
    hide Rest;
    RestParts(k);
    RestParts(l);
    var n, m, s := |k.runId|, |l.runId|, Rest(k);
    assert forall j | n < j < |s| :: s[j] == Tail(k)[j - n - 1] && s[j] != ':';
  }

  /** With clean run ids the three builders never collide, whatever the interrupt ids contain. */
  lemma KeysNeverCollide(prefix: string, k: Key, l: Key)
    requires Clean(k.runId) && Clean(l.runId)
    ensures Text(prefix, k) == Text(prefix, l) <==> k == l
  {
    hide Head, Rest, Tail, Clean;
    if Text(prefix, k) == Text(prefix, l) {
      SameRest(Head(prefix), Rest(k), Rest(l));
      if |k.runId| <= |l.runId| {
        SameRunId(k, l);
      } else {
        SameRunId(l, k);
      }
      RestParts(k);
      RestParts(l);
      TailsDiffer(k, l);
    }
  }

  lemma TailsDiffer(k: Key, l: Key)
    requires Tail(k) == Tail(l) && k.runId == l.runId
    ensures k == l
  {
    assert Tail(k)[0] == if k.EpochKey? then 'e' else 'r';
    assert Tail(l)[0] == if l.EpochKey? then 'e' else 'r';
    assert !k.EpochKey? ==> Tail(k)[7] == if k.RequestKey? then ':' else 's';
    assert !l.EpochKey? ==> Tail(l)[7] == if l.RequestKey? then ':' else 's';
    if k.RequestKey? {
      assert k.id == Tail(k)[8..] && l.id == Tail(l)[8..];
    }
  }

  /** What the wildcards of a sweep's pattern can stand for; prefixes hold no wildcard. */
  function Pattern(x: string, y: string): string {
    x + MIDDLE + y
  }

  ghost predicate Scanned(prefix: string, text: string) {
    exists x: string, y: string :: text == Head(prefix) + Pattern(x, y)
  }

  /** A sweep looks at exactly the request keys. */
  lemma ScanFindsRequests(prefix: string, k: Key)
    requires Clean(k.runId)
    ensures Scanned(prefix, Text(prefix, k)) <==> k.RequestKey?
  {
    hide Head, Rest, Tail, Pattern, Clean;
    if k.RequestKey? {
      RequestRest(k.runId, k.id);
    }
    forall x: string, y: string | Text(prefix, k) == Head(prefix) + Pattern(x, y) ensures k.RequestKey? {
      SameRest(Head(prefix), Rest(k), Pattern(x, y));
      PatternMiddle(x, y);
      CleanMiddle(k, |x|);
    }
  }

  lemma RequestRest(r: string, i: string)
    ensures Rest(RequestKey(r, i)) == Pattern(r, i)
  {
    assert r + ":" + ("request:" + i) == r + MIDDLE + i;
  }

  lemma PatternMiddle(x: string, y: string)
    ensures MiddleAt(Pattern(x, y), |x|)
  {
  }

  /** A run id that is not clean shares its epoch's key with a request of the run named by what comes
      before ":request:". */
  lemma UncleanCollides(prefix: string, t: string, x: nat)
    requires x < |t| && MiddleAt(t + ":", x)
    ensures Text(prefix, EpochKey(t)) == Text(prefix, RequestKey(t[..x], (t + ":epoch")[x + |MIDDLE|..]))
  {
    RequestRest(t[..x], (t + ":epoch")[x + |MIDDLE|..]);
    SplitAtMiddle(t, x);
  }

  lemma SplitAtMiddle(t: string, x: nat)
    requires x < |t| && MiddleAt(t + ":", x)
    ensures t + ":epoch" == t[..x] + MIDDLE + (t + ":epoch")[x + |MIDDLE|..]
  {
    var s, e := t + ":", t + ":epoch";
    assert e[..|s|] == s;
    assert e[x..x + |MIDDLE|] == s[x..x + |MIDDLE|];
    assert e == e[..x] + e[x..x + |MIDDLE|] + e[x + |MIDDLE|..];
    assert e[..x] == t[..x];
  }

  // ---- the database ----

  function At(db: Db, p: string, k: Key): Option<Value> {
    if Text(p, k) in db then Some(db[Text(p, k)]) else None
  }

  lemma AfterSet(db: Db, p: string, k: Key, v: Value)
    requires Clean(k.runId)
    ensures forall l: Key | Clean(l.runId) :: At(db[Text(p, k) := v], p, l) == if l == k then Some(v) else At(db, p, l)
  {
    hide Text;
    forall l: Key | Clean(l.runId) ensures At(db[Text(p, k) := v], p, l) == if l == k then Some(v) else At(db, p, l) {
      KeysNeverCollide(p, k, l);
    }
  }

  lemma AfterDelete(db: Db, p: string, k: Key)
    requires Clean(k.runId)
    ensures forall l: Key | Clean(l.runId) :: At(db - {Text(p, k)}, p, l) == if l == k then None else At(db, p, l)
  {
    hide Text;
    forall l: Key | Clean(l.runId) ensures At(db - {Text(p, k)}, p, l) == if l == k then None else At(db, p, l) {
      KeysNeverCollide(p, k, l);
    }
  }

  // ---- the operations ----

  function Index(db: Db, p: string, r: string): seq<string> {
    match At(db, p, IndexKey(r))
    case Some(Ids(ids)) => ids
    case _ => []
  }

  function Fetch(db: Db, p: string, r: string, i: string): Option<Request> {
    match At(db, p, RequestKey(r, i))
    case Some(Held(q)) => Some(q)
    case _ => None
  }

  function FetchEpoch(db: Db, p: string, r: string): int {
    match At(db, p, EpochKey(r))
    case Some(Epoch(e)) => e
    case _ => 0
  }

  /** An emptied list is a deleted key. */
  function Rewrite(db: Db, p: string, r: string, ids: seq<string>): Db {
    if ids == [] then db - {Text(p, IndexKey(r))} else db[Text(p, IndexKey(r)) := Ids(ids)]
  }

  function RSave(db: Db, p: string, q: Request): Db {
    var db1 := db[Text(p, RequestKey(q.runId, q.interruptId)) := Held(q)];
    if q.interruptId in Index(db1, p, q.runId) then db1
    else db1[Text(p, IndexKey(q.runId)) := Ids(Index(db1, p, q.runId) + [q.interruptId])]
  }

  function Present(db: Db, p: string, r: string, ids: seq<string>): seq<string> {
    if ids == [] then [] else Only(ids[0], Fetch(db, p, r, ids[0]).Some?) + Present(db, p, r, ids[1..])
  }

  function FetchAll(db: Db, p: string, r: string, ids: seq<string>): seq<Request> {
    if ids == [] then [] else ToSeq(Fetch(db, p, r, ids[0])) + FetchAll(db, p, r, ids[1..])
  }

  function RList(db: Db, p: string, r: string): (Db, seq<Request>) {
    var ids := Index(db, p, r);
    var valid := Present(db, p, r, ids);
    (if valid != ids then Rewrite(db, p, r, valid) else db, FetchAll(db, p, r, ids))
  }

  function RDelete(db: Db, p: string, r: string, i: string): Db {
    var db1 := db - {Text(p, RequestKey(r, i))};
    Rewrite(db1, p, r, Without(Index(db1, p, r), i))
  }

  predicate DueEntry(v: Value, now: int) {
    v.Held? && Due(v.request, now)
  }

  ghost function DueKeys(db: Db, p: string, now: int): set<string> {
    set t | t in db && Scanned(p, t) && DueEntry(db[t], now)
  }

  /** The index keeps the swept ids. */
  ghost function RSweep(db: Db, p: string, now: int): Db {
    db - DueKeys(db, p, now)
  }

  /** Keys are those the builders make for clean run ids, and only request keys hold requests. */
  ghost predicate Tidy(db: Db, p: string) {
    forall t | t in db :: exists k: Key :: Clean(k.runId) && t == Text(p, k) && (k.RequestKey? <==> db[t].Held?)
  }

  class RedisInterruptStore {
    const prefix: string
    var db: Db

    constructor (prefix: string)
      ensures db == map[] && this.prefix == prefix
    {
      this.prefix := prefix;
      db := map[];
    }

    method SetEpoch(r: string, epoch: int)
      modifies this
      ensures db == old(db)[Text(prefix, EpochKey(r)) := Epoch(epoch)]
    {
      db := db[Text(prefix, EpochKey(r)) := Epoch(epoch)];
    }

    /** Deletes the list and pushes the values again, one by one. */
    method RewriteList(r: string, values: seq<string>)
      modifies this
      ensures db == Rewrite(old(db), prefix, r, values)
    {
      hide Text;
      db := db - {Text(prefix, IndexKey(r))};
      for i := 0 to |values|
        invariant db == Rewrite(old(db), prefix, r, values[..i])
      {
        assert values[..i + 1] == values[..i] + [values[i]];
        db := db[Text(prefix, IndexKey(r)) := Ids(Index(db, prefix, r) + [values[i]])];
      }
      assert values[..|values|] == values;
    }

    method SaveRequest(q: Request)
      modifies this
      ensures db == RSave(old(db), prefix, q)
    {
      db := db[Text(prefix, RequestKey(q.runId, q.interruptId)) := Held(q)];
      var existing := Index(db, prefix, q.runId);
      if q.interruptId !in existing {
        db := db[Text(prefix, IndexKey(q.runId)) := Ids(existing + [q.interruptId])];
      }
    }

    method ListRequests(r: string) returns (out: seq<Request>)
      modifies this
      ensures (db, out) == RList(old(db), prefix, r)
    {
      hide Text;
      var ids := Index(db, prefix, r);
      var valid: seq<string> := [];
      out := [];
      for i := 0 to |ids|
        invariant valid == Present(db, prefix, r, ids[..i]) && out == FetchAll(db, prefix, r, ids[..i])
        invariant db == old(db)
      {
        assert ids[..i + 1] == ids[..i] + [ids[i]];
        PresentSnoc(db, prefix, r, ids[..i], ids[i]);
        var request := Fetch(db, prefix, r, ids[i]);
        if request.Some? {
          valid := valid + [ids[i]];
          out := out + [request.value];
        }
      }
      assert ids[..|ids|] == ids;
      if valid != ids {
        RewriteList(r, valid);
      }
    }

    /** The index is read once the request is gone. */
    method DeleteRequest(r: string, i: string)
      modifies this
      ensures db == RDelete(old(db), prefix, r, i)
    {
      hide Text;
      db := db - {Text(prefix, RequestKey(r, i))};
      var ids := Index(db, prefix, r);
      RewriteList(r, Without(ids, i));
    }

    /** `scan` is what the cursor returns over all its pages: every key of the pattern that was there, in
        any order, some perhaps more than once. */
    method SweepExpired(scan: seq<string>, now: int) returns (removed: nat)
      requires Tidy(db, prefix)
      requires forall t | t in scan :: Scanned(prefix, t)
      requires forall t | t in db && Scanned(prefix, t) :: t in scan
      modifies this
      ensures db == RSweep(old(db), prefix, now) && removed == |DueKeys(old(db), prefix, now)|
    {
      hide Scanned, Tidy;
      ghost var was := db;
      removed := 0;
      for i := 0 to |scan|
        invariant db == was - DueScanned(was, scan[..i], now)
        invariant removed == |DueScanned(was, scan[..i], now)|
      {
        assert scan[..i + 1] == scan[..i] + [scan[i]];
        if scan[i] in db && db[scan[i]].Held? && Due(db[scan[i]].request, now) {
          assert DueScanned(was, scan[..i + 1], now) == DueScanned(was, scan[..i], now) + {scan[i]};
          db := db - {scan[i]};
          removed := removed + 1;
        } else {
          assert DueScanned(was, scan[..i + 1], now) == DueScanned(was, scan[..i], now);
        }
      }
      assert scan[..|scan|] == scan;
      assert DueScanned(was, scan, now) == DueKeys(was, prefix, now);
    }
  }

  function DueScanned(db: Db, scan: seq<string>, now: int): set<string> {
    set t | t in scan && t in db && DueEntry(db[t], now)
  }

  lemma {:induction false} PresentSnoc(db: Db, p: string, r: string, ids: seq<string>, id: string)
    ensures Present(db, p, r, ids + [id]) == Present(db, p, r, ids) + Only(id, Fetch(db, p, r, id).Some?)
    ensures FetchAll(db, p, r, ids + [id]) == FetchAll(db, p, r, ids) + ToSeq(Fetch(db, p, r, id))
  {
    hide Fetch, Only, ToSeq;
    if ids == [] {
      assert [] + [id] == [id];
    } else {
      assert (ids + [id])[1..] == ids[1..] + [id];
      PresentSnoc(db, p, r, ids[1..], id);
    }
  }
}

/** Any sequence of operations on the two interrupt stores. */
module InterruptRefinement {
  import opened Prelude
  import opened Sequences
  import opened Interrupts
  import R = RedisInterrupts

  datatype Op =
    | GetEpoch(runId: string)
    | SetEpoch(runId: string, epoch: int)
    | Save(request: Request)
    | Get(runId: string, id: string)
    | List(runId: string)
    | Delete(runId: string, id: string)
    | Sweep(now: int)

  datatype Reply =
    | Done
    | Epoch(epoch: int)
    | Found(found: Option<Request>)
    | Listing(list: seq<Request>)
    | Removed(count: nat)

  function MemApply(st: Store, op: Op): (Store, Reply) {
    match op
    case GetEpoch(r) => (st, Epoch(EpochOf(st, r)))
    case SetEpoch(r, e) => (st.(epochs := st.epochs[r := e]), Done)
    case Save(q) => (Saved(st, q), Done)
    case Get(r, i) => (st, Found(RequestOf(st, r, i)))
    case List(r) => (st, Listing(Collect(Listed(st, r).order, Listed(st, r).at)))
    case Delete(r, i) => (Deleted(st, r, i), Done)
    case Sweep(now) => (Swept(st, now), Removed(|AllDue(st, st.requests.Keys, now)|))
  }

  ghost function RedisApply(db: R.Db, p: string, op: Op): (R.Db, Reply) {
    match op
    case GetEpoch(r) => (db, Epoch(R.FetchEpoch(db, p, r)))
    case SetEpoch(r, e) => (db[R.Text(p, R.EpochKey(r)) := R.Epoch(e)], Done)
    case Save(q) => (R.RSave(db, p, q), Done)
    case Get(r, i) => (db, Found(R.Fetch(db, p, r, i)))
    case List(r) => (R.RList(db, p, r).0, Listing(R.RList(db, p, r).1))
    case Delete(r, i) => (R.RDelete(db, p, r, i), Done)
    case Sweep(now) => (R.RSweep(db, p, now), Removed(|R.DueKeys(db, p, now)|))
  }

  /** The ids a sweep removed that no listing of their run, and no deletion, has healed since. */
  function Stale(st: Store, stale: set<(string, string)>, op: Op): set<(string, string)> {
    match op
    case Sweep(now) => stale + AllDue(st, st.requests.Keys, now)
    case List(r) => set p | p in stale && p.0 != r
    case Delete(r, i) => stale - {(r, i)}
    case _ => stale
  }

  predicate OnRun(op: Op, r: string) {
    match op
    case GetEpoch(x) => x == r
    case SetEpoch(x, _) => x == r
    case Save(q) => q.runId == r
    case Get(x, _) => x == r
    case List(x) => x == r
    case Delete(x, _) => x == r
    case Sweep(_) => false
  }

  predicate CleanOp(op: Op) {
    match op
    case GetEpoch(r) => R.Clean(r)
    case SetEpoch(r, _) => R.Clean(r)
    case Save(q) => R.Clean(q.runId)
    case Get(r, _) => R.Clean(r)
    case List(r) => R.Clean(r)
    case Delete(r, _) => R.Clean(r)
    case Sweep(_) => true
  }

  predicate SavesStale(stale: set<(string, string)>, op: Op) {
    op.Save? && (op.request.runId, op.request.interruptId) in stale
  }

  /** The two restrictions: run ids are clean, and an id is not saved again while it is stale. */
  predicate Allowed(stale: set<(string, string)>, op: Op) {
    CleanOp(op) && !SavesStale(stale, op)
  }

  // ---- the abstraction relation ----

  ghost predicate RunSim(d: Requests, index: seq<string>, stale: set<(string, string)>, r: string) {
    && NoDuplicates(index) && Keep(index, d.at.Keys) == d.order
    && forall i | i in index :: i in d.at || (r, i) in stale
  }

  /** The same answers for every clean run id; no other has been used. */
  ghost predicate Sim(st: Store, db: R.Db, p: string, stale: set<(string, string)>) {
    && StoreKept(st) && R.Tidy(db, p) && (forall r | r in st.requests :: R.Clean(r))
    && (forall r, i | R.Clean(r) :: R.Fetch(db, p, r, i) == RequestOf(st, r, i))
    && (forall r | R.Clean(r) :: R.FetchEpoch(db, p, r) == EpochOf(st, r))
    && (forall r | R.Clean(r) :: RunSim(Listed(st, r), R.Index(db, p, r), stale, r))
  }

  /** Listing, as both stores compute it. */
  lemma {:induction false} FetchAllIsCollect(db: R.Db, p: string, st: Store, r: string, ids: seq<string>)
    requires forall i :: R.Fetch(db, p, r, i) == RequestOf(st, r, i)
    ensures R.FetchAll(db, p, r, ids) == Collect(ids, Listed(st, r).at)
    ensures R.Present(db, p, r, ids) == Keep(ids, Listed(st, r).at.Keys)
  {
    hide R.Fetch, RequestOf, Entry, Keep, Only, ToSeq, Listed;
    KeepUnfolds(ids, Listed(st, r).at.Keys);
    if ids != [] {
      FetchAllIsCollect(db, p, st, r, ids[1..]);
      EntryIs(st, r, ids[0]);
    }
  }

  lemma EntryIs(st: Store, r: string, i: string)
    ensures Entry(i, Listed(st, r).at) == ToSeq(RequestOf(st, r, i))
    ensures i in Listed(st, r).at.Keys <==> RequestOf(st, r, i).Some?
  {
  }

  // ---- what an operation does to each run ----

  lemma TidySet(db: R.Db, p: string, k: R.Key, v: R.Value)
    requires R.Tidy(db, p) && R.Clean(k.runId) && (k.RequestKey? <==> v.Held?)
    ensures R.Tidy(db[R.Text(p, k) := v], p)
  {
    hide R.Text;
    var n := db[R.Text(p, k) := v];
    forall t | t in n ensures exists l: R.Key ::
      R.Clean(l.runId) && t == R.Text(p, l) && (l.RequestKey? <==> n[t].Held?) {
      if t == R.Text(p, k) {
        assert R.Clean(k.runId) && t == R.Text(p, k) && (k.RequestKey? <==> n[t].Held?);
      } else {
        assert t in db;
      }
    }
  }

  lemma TidyDrop(db: R.Db, p: string, gone: set<string>)
    requires R.Tidy(db, p)
    ensures R.Tidy(db - gone, p)
  {
    hide R.Text;
  }

  lemma RewriteReads(db: R.Db, p: string, r: string, ids: seq<string>)
    requires R.Clean(r)
    ensures var n := R.Rewrite(db, p, r, ids);
      && (forall x, i | R.Clean(x) :: R.Fetch(n, p, x, i) == R.Fetch(db, p, x, i))
      && (forall x | R.Clean(x) :: R.FetchEpoch(n, p, x) == R.FetchEpoch(db, p, x))
      && (forall x | R.Clean(x) :: R.Index(n, p, x) == if x == r then ids else R.Index(db, p, x))
      && (R.Tidy(db, p) ==> R.Tidy(n, p))
  {
    hide R.Text, R.At, R.Tidy, R.Clean;
    R.AfterSet(db, p, R.IndexKey(r), R.Ids(ids));
    R.AfterDelete(db, p, R.IndexKey(r));
    if R.Tidy(db, p) {
      TidySet(db, p, R.IndexKey(r), R.Ids(ids));
      TidyDrop(db, p, {R.Text(p, R.IndexKey(r))});
    }
  }

  lemma SaveReads(db: R.Db, p: string, q: Request)
    requires R.Clean(q.runId)
    ensures var n := R.RSave(db, p, q);
      && (forall x, i | R.Clean(x) :: R.Fetch(n, p, x, i) == if x == q.runId && i == q.interruptId then Some(q)
           else R.Fetch(db, p, x, i))
      && (forall x | R.Clean(x) :: R.FetchEpoch(n, p, x) == R.FetchEpoch(db, p, x))
      && (forall x | R.Clean(x) :: R.Index(n, p, x) == if x == q.runId then AddOnce(R.Index(db, p, x), q.interruptId)
           else R.Index(db, p, x))
      && (R.Tidy(db, p) ==> R.Tidy(n, p))
  {
    hide R.Text, R.At, R.Tidy, R.Clean;
    var k, l := R.RequestKey(q.runId, q.interruptId), R.IndexKey(q.runId);
    R.AfterSet(db, p, k, R.Held(q));
    var db1 := db[R.Text(p, k) := R.Held(q)];
    var ids := R.Index(db1, p, q.runId) + [q.interruptId];
    R.AfterSet(db1, p, l, R.Ids(ids));
    if R.Tidy(db, p) {
      TidySet(db, p, k, R.Held(q));
      TidySet(db1, p, l, R.Ids(ids));
    }
  }

  lemma DropReads(db: R.Db, p: string, r: string, i: string)
    requires R.Clean(r)
    ensures var n := db - {R.Text(p, R.RequestKey(r, i))};
      && (forall x, j | R.Clean(x) :: R.Fetch(n, p, x, j) == if x == r && j == i then None else R.Fetch(db, p, x, j))
      && (forall x | R.Clean(x) :: R.FetchEpoch(n, p, x) == R.FetchEpoch(db, p, x))
      && (forall x | R.Clean(x) :: R.Index(n, p, x) == R.Index(db, p, x))
      && (R.Tidy(db, p) ==> R.Tidy(n, p))
  {
    hide R.Text, R.At, R.Tidy, R.Clean;
    R.AfterDelete(db, p, R.RequestKey(r, i));
    if R.Tidy(db, p) {
      TidyDrop(db, p, {R.Text(p, R.RequestKey(r, i))});
    }
  }

  /** A sweep sees the request keys and no others. */
  lemma SweptAt(db: R.Db, p: string, now: int, k: R.Key)
    requires R.Clean(k.runId)
    ensures
      var v := R.At(db, p, k);
      R.At(R.RSweep(db, p, now), p, k) == if k.RequestKey? && v.Some? && R.DueEntry(v.value, now) then None else v
  {
    hide R.Text, R.Scanned, R.DueEntry;
    R.ScanFindsRequests(p, k);
  }

  lemma SweepReads(db: R.Db, p: string, now: int)
    ensures var n := R.RSweep(db, p, now);
      && (forall x, i | R.Clean(x) :: R.Fetch(n, p, x, i) ==
            if R.Fetch(db, p, x, i).Some? && Due(R.Fetch(db, p, x, i).value, now) then None else R.Fetch(db, p, x, i))
      && (forall x | R.Clean(x) :: R.FetchEpoch(n, p, x) == R.FetchEpoch(db, p, x))
      && (forall x | R.Clean(x) :: R.Index(n, p, x) == R.Index(db, p, x))
      && (R.Tidy(db, p) ==> R.Tidy(n, p))
  {
    hide R.Text, R.At, R.Tidy, R.Clean, R.RSweep;
    forall k: R.Key | R.Clean(k.runId) ensures
      var v := R.At(db, p, k);
      R.At(R.RSweep(db, p, now), p, k) == if k.RequestKey? && v.Some? && R.DueEntry(v.value, now) then None else v
    {
      SweptAt(db, p, now, k);
    }
    if R.Tidy(db, p) {
      SweepIs(db, p, now);
      TidyDrop(db, p, R.DueKeys(db, p, now));
    }
  }

  lemma SweepIs(db: R.Db, p: string, now: int)
    ensures R.RSweep(db, p, now) == db - R.DueKeys(db, p, now)
  {
  }

  // ---- one run ----

  lemma PutSim(d: Requests, index: seq<string>, stale: set<(string, string)>, r: string, q: Request)
    requires Ordered(d) && RunSim(d, index, stale, r) && (r, q.interruptId) !in stale
    ensures RunSim(Put(d, q), AddOnce(index, q.interruptId), stale, r)
  {
    var keys := d.at.Keys + {q.interruptId};
    assert Put(d, q).at.Keys == keys;
    if q.interruptId !in index {
      KeepSnoc(index, q.interruptId, keys);
      KeepCongruent(index, d.at.Keys, keys);
    } else {
      assert keys == d.at.Keys;
    }
  }

  lemma RemoveSim(d: Requests, index: seq<string>, stale: set<(string, string)>, r: string, i: string)
    requires Ordered(d) && RunSim(d, index, stale, r)
    ensures RunSim(Remove(d, i), Without(index, i), stale - {(r, i)}, r)
  {
    WithoutKeeps(index, i, d.at.Keys);
    assert Remove(d, i).at.Keys == d.at.Keys - {i};
    WithoutDistinct(index, i);
  }

  lemma {:induction false} WithoutKeeps(ids: seq<string>, i: string, valid: set<string>)
    ensures Keep(Without(ids, i), valid - {i}) == Without(Keep(ids, valid), i)
  {
    if ids != [] {
      WithoutKeeps(ids[1..], i, valid);
      var w, k := Without(ids[1..], i), Keep(ids[1..], valid);
      assert ([ids[0]] + w)[1..] == w && ([ids[0]] + k)[1..] == k;
    }
  }

  lemma {:induction false} WithoutDistinct(ids: seq<string>, i: string)
    requires NoDuplicates(ids)
    ensures NoDuplicates(Without(ids, i))
  {
    if ids != [] {
      assert ids == [ids[0]] + ids[1..];
      WithoutDistinct(ids[1..], i);
      assert ids[0] !in Without(ids[1..], i);
    }
  }

  lemma UndueSim(d: Requests, index: seq<string>, stale: set<(string, string)>, r: string, now: int,
                 more: set<(string, string)>)
    requires Ordered(d) && RunSim(d, index, stale, r)
    requires stale <= more && forall i | i in DueIds(d.at, now) :: (r, i) in more
    ensures RunSim(Undue(d, now), index, more, r)
  {
    var kept := d.at.Keys - DueIds(d.at, now);
    KeepTwice(index, d.at.Keys, kept);
    assert d.at.Keys * kept == kept && Undue(d, now).at.Keys == kept;
  }

  lemma HealedSim(d: Requests, stale: set<(string, string)>, r: string)
    requires Ordered(d)
    ensures RunSim(d, d.order, stale, r)
  {
    KeepAll(d.order, d.at.Keys);
  }

  lemma MoreStale(d: Requests, index: seq<string>, stale: set<(string, string)>, more: set<(string, string)>, r: string)
    requires RunSim(d, index, stale, r) && (forall i | (r, i) in stale :: (r, i) in more)
    ensures RunSim(d, index, more, r)
  {
  }

  // ---- each operation ----

  /** A saved request's run answers for itself; what is stale of the other runs stays so. */
  lemma SavedSim(st: Store, db: R.Db, p: string, stale: set<(string, string)>, q: Request, more: set<(string, string)>)
    requires Sim(st, db, p, stale) && R.Clean(q.runId)
    requires RunSim(Put(Listed(st, q.runId), q), AddOnce(R.Index(db, p, q.runId), q.interruptId), more, q.runId)
    requires forall pair | pair in stale && pair.0 != q.runId :: pair in more
    ensures Sim(Saved(st, q), R.RSave(db, p, q), p, more)
  {
    hide RunSim, StoreKept, Ordered, Saved, Put, AddOnce, Listed, RequestOf, R.Fetch, R.Index, R.FetchEpoch, R.RSave,
      R.Tidy, R.Clean;
    SaveReads(db, p, q);
    SavedReads(st, q);
    var n, db1 := Saved(st, q), R.RSave(db, p, q);
    forall x | R.Clean(x) ensures RunSim(Listed(n, x), R.Index(db1, p, x), more, x) {
      if x != q.runId {
        MoreStale(Listed(st, x), R.Index(db, p, x), stale, more, x);
      }
    }
  }

  lemma SavedReads(st: Store, q: Request)
    requires StoreKept(st)
    ensures var n := Saved(st, q);
      && StoreKept(n) && n.epochs == st.epochs && (forall x | x in n.requests :: x == q.runId || x in st.requests)
      && (forall x :: Listed(n, x) == if x == q.runId then Put(Listed(st, x), q) else Listed(st, x))
      && (forall x, i :: RequestOf(n, x, i) == if x == q.runId && i == q.interruptId then Some(q)
           else RequestOf(st, x, i))
  {
    hide StoreKept, Ordered, Saved, WithRun, Put, Listed;
    SavedIsWithRun(st, q);
    WithRunKept(st, q.runId, Put(Listed(st, q.runId), q));
    WithRunDomain(st.requests, q.runId, Put(Listed(st, q.runId), q));
    PutLookup(Listed(st, q.runId), q);
  }

  lemma SimSave(st: Store, db: R.Db, p: string, stale: set<(string, string)>, q: Request)
    requires Sim(st, db, p, stale) && R.Clean(q.runId) && (q.runId, q.interruptId) !in stale
    ensures Sim(Saved(st, q), R.RSave(db, p, q), p, stale)
  {
    hide RunSim, StoreKept, Ordered, Saved, Put, AddOnce, Listed, R.Fetch, R.Index, R.FetchEpoch, R.RSave, R.Tidy,
      R.Clean;
    KeptOrdered(st, q.runId);
    PutSim(Listed(st, q.runId), R.Index(db, p, q.runId), stale, q.runId, q);
    SavedSim(st, db, p, stale, q, stale);
  }

  lemma WithRunDomain(requests: map<string, Requests>, r: string, d: Requests)
    ensures forall x | x in WithRun(requests, r, d) :: x == r || x in requests
  {
  }

  lemma PutLookup(d: Requests, q: Request)
    ensures Put(d, q).at == d.at[q.interruptId := q]
  {
  }

  lemma DeleteReads(db: R.Db, p: string, r: string, i: string)
    requires R.Clean(r)
    ensures var n := R.RDelete(db, p, r, i);
      && (forall x, j | R.Clean(x) :: R.Fetch(n, p, x, j) == if x == r && j == i then None else R.Fetch(db, p, x, j))
      && (forall x | R.Clean(x) :: R.FetchEpoch(n, p, x) == R.FetchEpoch(db, p, x))
      && (forall x | R.Clean(x) :: R.Index(n, p, x) == if x == r then Without(R.Index(db, p, r), i)
           else R.Index(db, p, x))
      && (R.Tidy(db, p) ==> R.Tidy(n, p))
  {
    hide Without, R.Fetch, R.Index, R.FetchEpoch, R.Rewrite, R.Tidy, R.Clean, R.Text;
    DropReads(db, p, r, i);
    RewriteReads(db - {R.Text(p, R.RequestKey(r, i))}, p, r, Without(R.Index(db, p, r), i));
  }

  lemma DeletedReads(st: Store, r: string, i: string)
    requires StoreKept(st)
    ensures var n := Deleted(st, r, i);
      && StoreKept(n) && n.epochs == st.epochs && (forall x | x in n.requests :: x == r || x in st.requests)
      && (forall x :: Listed(n, x) == if x == r then Remove(Listed(st, r), i) else Listed(st, x))
      && (forall x, j :: RequestOf(n, x, j) == if x == r && j == i then None else RequestOf(st, x, j))
  {
    hide StoreKept, Ordered, Deleted, WithRun, Remove, Listed;
    DeletedIsWithRun(st, r, i);
    WithRunKept(st, r, Remove(Listed(st, r), i));
    WithRunDomain(st.requests, r, Remove(Listed(st, r), i));
    RemoveLookup(Listed(st, r), i);
  }

  lemma SimDelete(st: Store, db: R.Db, p: string, stale: set<(string, string)>, r: string, i: string)
    requires Sim(st, db, p, stale) && R.Clean(r)
    ensures Sim(Deleted(st, r, i), R.RDelete(db, p, r, i), p, stale - {(r, i)})
  {
    hide RunSim, StoreKept, Ordered, Deleted, Remove, Without, Listed, RequestOf, R.Fetch, R.Index, R.FetchEpoch,
      R.RDelete, R.Tidy, R.Clean;
    DeleteReads(db, p, r, i);
    DeletedReads(st, r, i);
    KeptOrdered(st, r);
    RemoveSim(Listed(st, r), R.Index(db, p, r), stale, r, i);
    var n := Deleted(st, r, i);
    forall x | R.Clean(x) ensures RunSim(Listed(n, x), R.Index(R.RDelete(db, p, r, i), p, x), stale - {(r, i)}, x) {
      if x != r {
        MoreStale(Listed(st, x), R.Index(db, p, x), stale, stale - {(r, i)}, x);
      }
    }
  }

  lemma RemoveLookup(d: Requests, i: string)
    ensures Remove(d, i).at == d.at - {i}
  {
  }

  lemma SimList(st: Store, db: R.Db, p: string, stale: set<(string, string)>, r: string)
    requires Sim(st, db, p, stale) && R.Clean(r)
    ensures Sim(st, R.RList(db, p, r).0, p, Stale(st, stale, List(r)))
    ensures R.RList(db, p, r).1 == Collect(Listed(st, r).order, Listed(st, r).at)
  {
    hide StoreKept, Ordered, Keep, Collect, R.Fetch, R.Index, R.FetchEpoch, R.Rewrite, R.Present, R.FetchAll, R.Tidy,
      R.Clean;
    var d, index := Listed(st, r), R.Index(db, p, r);
    assert RunSim(d, index, stale, r);
    FetchAllIsCollect(db, p, st, r, index);
    CollectKept(index, d.at, d.at.Keys);
    KeptOrdered(st, r);
    RewriteReads(db, p, r, d.order);
    var more := Stale(st, stale, List(r));
    forall x | R.Clean(x) ensures RunSim(Listed(st, x), R.Index(R.RList(db, p, r).0, p, x), more, x) {
      if x == r {
        HealedSim(d, more, r);
      } else {
        MoreStale(Listed(st, x), R.Index(db, p, x), stale, more, x);
      }
    }
  }

  lemma SimSweep(st: Store, db: R.Db, p: string, stale: set<(string, string)>, now: int)
    requires Sim(st, db, p, stale)
    ensures Sim(Swept(st, now), R.RSweep(db, p, now), p, stale + AllDue(st, st.requests.Keys, now))
    ensures |R.DueKeys(db, p, now)| == |AllDue(st, st.requests.Keys, now)|
  {
    hide RunSim, StoreKept, Ordered, Undue, Swept, Listed, AllDue, RequestOf, R.Fetch, R.Index, R.FetchEpoch, R.RSweep,
      R.DueKeys, R.Tidy, R.Clean;
    SweepReads(db, p, now);
    SweptKept(st, now);
    SweptDomain(st, now);
    UndueReads(st, now);
    var more := stale + AllDue(st, st.requests.Keys, now);
    forall x | R.Clean(x) ensures RunSim(Undue(Listed(st, x), now), R.Index(db, p, x), more, x) {
      DueAreStale(st, x, now);
      KeptOrdered(st, x);
      UndueSim(Listed(st, x), R.Index(db, p, x), stale, x, now, more);
    }
    SweepCount(st, db, p, now);
  }

  lemma SweptDomain(st: Store, now: int)
    ensures forall r | r in Swept(st, now).requests :: r in st.requests
    ensures Swept(st, now).epochs == st.epochs
  {
  }

  lemma DueAreStale(st: Store, r: string, now: int)
    ensures forall i | i in DueIds(Listed(st, r).at, now) :: (r, i) in AllDue(st, st.requests.Keys, now)
  {
  }

  lemma UndueReads(st: Store, now: int)
    requires StoreKept(st)
    ensures forall x, i ::
      RequestOf(Swept(st, now), x, i) ==
        (if RequestOf(st, x, i).Some? && Due(RequestOf(st, x, i).value, now) then None else RequestOf(st, x, i))
  {
    hide StoreKept, Swept;
    SweptKept(st, now);
  }

  /** The text of a pair's request key. */
  function TextOf(p: string, pair: (string, string)): string {
    R.Text(p, R.RequestKey(pair.0, pair.1))
  }

  lemma SweepCount(st: Store, db: R.Db, p: string, now: int)
    requires R.Tidy(db, p) && (forall r | r in st.requests :: R.Clean(r))
    requires forall r, i | R.Clean(r) :: R.Fetch(db, p, r, i) == RequestOf(st, r, i)
    ensures |R.DueKeys(db, p, now)| == |AllDue(st, st.requests.Keys, now)|
  {
    hide R.Scanned, R.Text, R.Tidy;
    var pairs := AllDue(st, st.requests.Keys, now);
    forall t | t in R.DueKeys(db, p, now) ensures exists pair | pair in pairs :: t == TextOf(p, pair) {
      var pair := DueText(st, db, p, now, t);
    }
    forall pair | pair in pairs ensures TextOf(p, pair) in R.DueKeys(db, p, now) {
      assert R.Fetch(db, p, pair.0, pair.1) == RequestOf(st, pair.0, pair.1);
      R.ScanFindsRequests(p, R.RequestKey(pair.0, pair.1));
    }
    assert R.DueKeys(db, p, now) == set pair | pair in pairs :: TextOf(p, pair);
    KeyCount(p, pairs);
  }

  /** A key a sweep deletes is that of a due request in memory. */
  lemma DueText(st: Store, db: R.Db, p: string, now: int, t: string) returns (pair: (string, string))
    requires R.Tidy(db, p) && (forall r, i | R.Clean(r) :: R.Fetch(db, p, r, i) == RequestOf(st, r, i))
    requires t in R.DueKeys(db, p, now)
    ensures pair in AllDue(st, st.requests.Keys, now) && t == TextOf(p, pair)
  {
    hide R.Text, R.Clean;
    var k: R.Key :| R.Clean(k.runId) && t == R.Text(p, k) && (k.RequestKey? <==> db[t].Held?);
    pair := (k.runId, k.id);
    assert R.Fetch(db, p, k.runId, k.id) == RequestOf(st, k.runId, k.id);
  }

  lemma {:induction false} KeyCount(p: string, pairs: set<(string, string)>)
    requires forall pair | pair in pairs :: R.Clean(pair.0)
    ensures |set pair | pair in pairs :: TextOf(p, pair)| == |pairs|
  {
    hide R.Text;
    if pairs != {} {
      var x :| x in pairs;
      KeyCount(p, pairs - {x});
      forall y | y in pairs && y != x ensures TextOf(p, y) != TextOf(p, x) {
        R.KeysNeverCollide(p, R.RequestKey(x.0, x.1), R.RequestKey(y.0, y.1));
      }
      assert (set pair | pair in pairs :: TextOf(p, pair))
          == (set pair | pair in pairs - {x} :: TextOf(p, pair)) + {TextOf(p, x)};
    }
  }

  lemma EpochReads(db: R.Db, p: string, r: string, e: int)
    requires R.Clean(r)
    ensures var n := db[R.Text(p, R.EpochKey(r)) := R.Epoch(e)];
      && (forall x, i | R.Clean(x) :: R.Fetch(n, p, x, i) == R.Fetch(db, p, x, i))
      && (forall x | R.Clean(x) :: R.FetchEpoch(n, p, x) == if x == r then e else R.FetchEpoch(db, p, x))
      && (forall x | R.Clean(x) :: R.Index(n, p, x) == R.Index(db, p, x))
      && (R.Tidy(db, p) ==> R.Tidy(n, p))
  {
    hide R.Text, R.At, R.Tidy, R.Clean;
    R.AfterSet(db, p, R.EpochKey(r), R.Epoch(e));
    if R.Tidy(db, p) {
      TidySet(db, p, R.EpochKey(r), R.Epoch(e));
    }
  }

  lemma SimSetEpoch(st: Store, db: R.Db, p: string, stale: set<(string, string)>, r: string, e: int)
    requires Sim(st, db, p, stale) && R.Clean(r)
    ensures Sim(st.(epochs := st.epochs[r := e]), db[R.Text(p, R.EpochKey(r)) := R.Epoch(e)], p, stale)
  {
    hide RunSim, RunKept, R.Text, R.Fetch, R.Index, R.FetchEpoch, R.Tidy, R.Clean;
    EpochReads(db, p, r, e);
  }

  /** One operation: equal replies, and the stores stay related. */
  lemma OperationRefines(st: Store, db: R.Db, p: string, stale: set<(string, string)>, op: Op)
    requires Sim(st, db, p, stale) && Allowed(stale, op)
    ensures RedisApply(db, p, op).1 == MemApply(st, op).1
    ensures Sim(MemApply(st, op).0, RedisApply(db, p, op).0, p, Stale(st, stale, op))
  {
    hide RunSim, StoreKept, Saved, Swept, Deleted, RequestOf, R.RSave, R.RList, R.RDelete, R.RSweep, R.Fetch,
      R.FetchEpoch, R.DueKeys, R.Tidy, R.Clean, R.Text;
    match op
    case Save(q) => SimSave(st, db, p, stale, q);
    case List(r) => SimList(st, db, p, stale, r);
    case Delete(r, i) => SimDelete(st, db, p, stale, r, i);
    case Sweep(now) => SimSweep(st, db, p, stale, now);
    case SetEpoch(r, e) => SimSetEpoch(st, db, p, stale, r, e);
    case Get(r, i) => assert R.Fetch(db, p, r, i) == RequestOf(st, r, i);
    case GetEpoch(r) => assert R.FetchEpoch(db, p, r) == EpochOf(st, r);
  }

  function MemReplies(st: Store, ops: seq<Op>): seq<Reply>
    decreases |ops|
  {
    if ops == [] then [] else [MemApply(st, ops[0]).1] + MemReplies(MemApply(st, ops[0]).0, ops[1..])
  }

  ghost function RedisReplies(db: R.Db, p: string, ops: seq<Op>): seq<Reply>
    decreases |ops|
  {
    if ops == [] then [] else [RedisApply(db, p, ops[0]).1] + RedisReplies(RedisApply(db, p, ops[0]).0, p, ops[1..])
  }

  ghost predicate AllAllowed(st: Store, stale: set<(string, string)>, ops: seq<Op>)
    decreases |ops|
  {
    ops == [] || (Allowed(stale, ops[0]) && AllAllowed(MemApply(st, ops[0]).0, Stale(st, stale, ops[0]), ops[1..]))
  }

  /** Any sequence of operations on clean run ids gets the same replies, in the same order, from
      both stores, as long as no id is saved again between the sweep that removed it and the next
      listing of its run. */
  lemma {:induction false} RedisRefinesMemory(st: Store, db: R.Db, p: string, stale: set<(string, string)>,
                                              ops: seq<Op>)
    requires Sim(st, db, p, stale) && AllAllowed(st, stale, ops)
    ensures RedisReplies(db, p, ops) == MemReplies(st, ops)
    decreases |ops|
  {
    hide Sim, Allowed, MemApply, RedisApply, Stale;
    if ops != [] {
      OperationRefines(st, db, p, stale, ops[0]);
      RedisRefinesMemory(MemApply(st, ops[0]).0, RedisApply(db, p, ops[0]).0, p, Stale(st, stale, ops[0]), ops[1..]);
    }
  }

  lemma EmptyStoresRelated(p: string)
    ensures Sim(EMPTY_STORE, map[], p, {})
  {
    hide R.Text;
  }

  /** From empty stores: every such sequence gets the same replies from both. */
  lemma EmptyStoresAgree(p: string, ops: seq<Op>)
    requires AllAllowed(EMPTY_STORE, {}, ops)
    ensures RedisReplies(map[], p, ops) == MemReplies(EMPTY_STORE, ops)
  {
    hide Sim, AllAllowed;
    EmptyStoresRelated(p);
    RedisRefinesMemory(EMPTY_STORE, map[], p, {}, ops);
  }

  /** No id is saved again while it is stale. */
  ghost predicate NeverStale(st: Store, stale: set<(string, string)>, ops: seq<Op>)
    decreases |ops|
  {
    ops == [] || (!SavesStale(stale, ops[0]) && NeverStale(MemApply(st, ops[0]).0, Stale(st, stale, ops[0]), ops[1..]))
  }

  /** Setting the epoch of a run whose id is not clean overwrites a request of the run its id begins with,
      which then reads as no request any more (the code raises on it) while the in-memory store still
      answers with it. */
  lemma UncleanDiffers(p: string, t: string, x: nat, q: Request, e: int)
    requires x < |t| && R.MiddleAt(t + ":", x) && q.runId == t[..x] && q.interruptId == (t + ":epoch")[x + |R.MIDDLE|..]
    ensures
      var ops := [Save(q), SetEpoch(t, e), Get(q.runId, q.interruptId)];
      RedisReplies(map[], p, ops) == [Done, Done, Found(None)]
        && MemReplies(EMPTY_STORE, ops) == [Done, Done, Found(Some(q))]
  {
    hide R.Text, R.RSave, Saved, RequestOf, R.MiddleAt;
    var ops := [Save(q), SetEpoch(t, e), Get(q.runId, q.interruptId)];
    assert ops[1..] == [SetEpoch(t, e), Get(q.runId, q.interruptId)];
    assert ops[1..][1..] == [Get(q.runId, q.interruptId)] && ops[1..][1..][1..] == [];
    R.UncleanCollides(p, t, x);
    var db := R.RSave(map[], p, q)[R.Text(p, R.EpochKey(t)) := R.Epoch(e)];
    assert R.Fetch(db, p, q.runId, q.interruptId) == None;
    RedisThree(p, ops);
    SavedFound(q, t, e);
    MemThree(ops);
  }

  /** What comes before the first ":request:" of an id is clean. */
  lemma {:induction false} FirstMiddle(t: string, x: nat) returns (first: nat)
    requires x < |t| && R.MiddleAt(t + ":", x)
    ensures first < |t| && R.MiddleAt(t + ":", first) && R.Clean(t[..first])
    decreases x
  {
    if R.Clean(t[..x]) {
      first := x;
    } else {
      var y: nat :| y < x && R.MiddleAt(t[..x] + ":", y);
      EarlierMiddle(t, x, y);
      first := FirstMiddle(t, y);
    }
  }

  lemma EarlierMiddle(t: string, x: nat, y: nat)
    requires x < |t| && R.MiddleAt(t + ":", x) && y < x && R.MiddleAt(t[..x] + ":", y)
    ensures R.MiddleAt(t + ":", y)
  {
    hide R.MiddleAt;
    R.MiddleColons(t + ":", x);
    R.MiddleColons(t[..x] + ":", y);
    SameMiddle(t[..x] + ":", t + ":", y);
  }

  lemma SameMiddle(a: string, b: string, y: nat)
    requires R.MiddleAt(a, y) && a <= b
    ensures R.MiddleAt(b, y)
  {
    assert b[y..y + |R.MIDDLE|] == a[y..y + |R.MIDDLE|];
  }

  /** The restriction on run ids is exact: beside clean ones, a run id gets the same replies from both stores
      in every sequence of operations without a stale save if and only if it is clean. */
  lemma CleanExactly(p: string, t: string)
    ensures R.Clean(t) <==>
      forall ops: seq<Op> | (forall op | op in ops :: CleanOp(op) || OnRun(op, t))
        && NeverStale(EMPTY_STORE, {}, ops) ::
        RedisReplies(map[], p, ops) == MemReplies(EMPTY_STORE, ops)
  {
    hide R.Clean, R.MiddleAt, NeverStale, RedisReplies, MemReplies;
    if R.Clean(t) {
      forall ops: seq<Op> | (forall op | op in ops :: CleanOp(op) || OnRun(op, t)) && NeverStale(EMPTY_STORE, {}, ops)
        ensures RedisReplies(map[], p, ops) == MemReplies(EMPTY_STORE, ops)
      {
        NeverStaleAllowed(EMPTY_STORE, {}, ops);
        EmptyStoresAgree(p, ops);
      }
    } else {
      var ops := UncleanOps(p, t);
    }
  }

  lemma UncleanOps(p: string, t: string) returns (ops: seq<Op>)
    requires !R.Clean(t)
    ensures (forall op | op in ops :: CleanOp(op) || OnRun(op, t)) && NeverStale(EMPTY_STORE, {}, ops)
    ensures RedisReplies(map[], p, ops) != MemReplies(EMPTY_STORE, ops)
  {
    hide R.MiddleAt, RedisReplies, MemReplies, MemApply;
    var x: nat :| x < |t| && R.MiddleAt(t + ":", x);
    var first := FirstMiddle(t, x);
    R.MiddleColons(t + ":", first);
    var q := Request((t + ":epoch")[first + |R.MIDDLE|..], t[..first], "", 0, 0, 0, Pending);
    UncleanDiffers(p, t, first, q, 0);
    ops := [Save(q), SetEpoch(t, 0), Get(q.runId, q.interruptId)];
    UnsweptNeverStale(EMPTY_STORE, ops);
  }

  lemma {:induction false} UnsweptNeverStale(st: Store, ops: seq<Op>)
    requires forall op | op in ops :: !op.Sweep?
    ensures NeverStale(st, {}, ops)
    decreases |ops|
  {
    hide MemApply;
    if ops != [] {
      assert Stale(st, {}, ops[0]) == {};
      UnsweptNeverStale(MemApply(st, ops[0]).0, ops[1..]);
    }
  }

  lemma {:induction false} NeverStaleAllowed(st: Store, stale: set<(string, string)>, ops: seq<Op>)
    requires NeverStale(st, stale, ops) && forall op | op in ops :: CleanOp(op)
    ensures AllAllowed(st, stale, ops)
    decreases |ops|
  {
    hide MemApply, Stale, CleanOp, SavesStale;
    if ops != [] {
      NeverStaleAllowed(MemApply(st, ops[0]).0, Stale(st, stale, ops[0]), ops[1..]);
    }
  }

  lemma RedisThree(p: string, ops: seq<Op>)
    requires |ops| == 3
    ensures
      var a := RedisApply(map[], p, ops[0]);
      var b := RedisApply(a.0, p, ops[1]);
      RedisReplies(map[], p, ops) == [a.1, b.1, RedisApply(b.0, p, ops[2]).1]
  {
    hide RedisApply;
    var a := RedisApply(map[], p, ops[0]);
    var b := RedisApply(a.0, p, ops[1]);
    assert RedisReplies(b.0, p, ops[2..])
      == [RedisApply(b.0, p, ops[2]).1] + RedisReplies(RedisApply(b.0, p, ops[2]).0, p, ops[2..][1..]);
    assert ops[1..][1..] == ops[2..];
  }

  lemma MemThree(ops: seq<Op>)
    requires |ops| == 3
    ensures
      var a := MemApply(EMPTY_STORE, ops[0]);
      var b := MemApply(a.0, ops[1]);
      MemReplies(EMPTY_STORE, ops) == [a.1, b.1, MemApply(b.0, ops[2]).1]
  {
    hide MemApply;
    var a := MemApply(EMPTY_STORE, ops[0]);
    var b := MemApply(a.0, ops[1]);
    assert MemReplies(b.0, ops[2..]) == [MemApply(b.0, ops[2]).1] + MemReplies(MemApply(b.0, ops[2]).0, ops[2..][1..]);
    assert ops[1..][1..] == ops[2..];
  }

  lemma SavedFound(q: Request, other: string, e: int)
    ensures
      var st := Saved(EMPTY_STORE, q);
      RequestOf(st.(epochs := st.epochs[other := e]), q.runId, q.interruptId) == Some(q)
  {
  }

  // ---- stale saves ----

  /** No id listed after i is live. */
  ghost predicate NothingAfter(index: seq<string>, i: string, live: set<string>) {
    forall a, b | 0 <= a < b < |index| && index[a] == i :: index[b] !in live
  }

  lemma {:induction false} KeepJoins(a: seq<string>, b: seq<string>, valid: set<string>)
    ensures Keep(a + b, valid) == Keep(a, valid) + Keep(b, valid)
  {
    hide Keep, Only;
    KeepUnfolds(a, valid);
    if a == [] {
      assert a + b == b;
    } else {
      KeepUnfolds(a + b, valid);
      assert (a + b)[1..] == a[1..] + b;
      KeepJoins(a[1..], b, valid);
    }
  }

  lemma {:induction false} KeepNone(ids: seq<string>, valid: set<string>)
    ensures Keep(ids, valid) == [] <==> forall i | i in ids :: i !in valid
  {
    if ids != [] {
      assert ids == [ids[0]] + ids[1..];
      KeepNone(ids[1..], valid);
    }
  }

  /** An id given back its place stands last exactly when nothing live follows it. */
  lemma BackInPlace(index: seq<string>, i: string, live: set<string>)
    requires NoDuplicates(index) && i !in live
    ensures Keep(AddOnce(index, i), live + {i}) == Keep(index, live) + [i] <==> NothingAfter(index, i, live)
  {
    hide Keep;
    if i !in index {
      KeepSnoc(index, i, live + {i});
      KeepCongruent(index, live, live + {i});
    } else {
      var k :| 0 <= k < |index| && index[k] == i;
      PlacedAt(index, k, live);
    }
  }

  lemma PlacedAt(index: seq<string>, k: nat, live: set<string>)
    requires NoDuplicates(index) && k < |index| && index[k] !in live
    ensures Keep(index, live + {index[k]}) == Keep(index, live) + [index[k]] <==> NothingAfter(index, index[k], live)
  {
    hide Keep;
    var a, i, b := index[..k], index[k], index[k + 1..];
    assert index == a + ([i] + b);
    AroundKept(a, i, b, live);
    KeepNone(b, live);
    var x, y := Keep(a, live), Keep(b, live);
    assert (x + ([i] + y) == (x + y) + [i]) == (y == []) by {
      Rotated(x, i, y);
    }
    assert NothingAfter(index, i, live) <==> forall j | j in b :: j !in live by {
      AfterIs(index, k, live);
    }
  }

  lemma AroundKept(a: seq<string>, i: string, b: seq<string>, live: set<string>)
    requires i !in a && i !in b && i !in live
    ensures Keep(a + ([i] + b), live + {i}) == Keep(a, live) + ([i] + Keep(b, live))
    ensures Keep(a + ([i] + b), live) == Keep(a, live) + Keep(b, live)
    ensures i !in Keep(b, live)
  {
    KeepJoins(a, [i] + b, live + {i});
    KeepJoins(a, [i] + b, live);
    assert ([i] + b)[1..] == b;
    KeepCongruent(a, live, live + {i});
    KeepCongruent(b, live, live + {i});
  }

  lemma Rotated(x: seq<string>, i: string, y: seq<string>)
    requires i !in y
    ensures x + ([i] + y) == (x + y) + [i] <==> y == []
  {
    if y != [] {
      assert (x + ([i] + y))[|x|] == i && ((x + y) + [i])[|x|] == y[0];
    } else {
      assert x + ([i] + y) == (x + y) + [i];
    }
  }

  lemma AfterIs(index: seq<string>, k: nat, live: set<string>)
    requires NoDuplicates(index) && k < |index|
    ensures NothingAfter(index, index[k], live) <==> forall j | j in index[k + 1..] :: j !in live
  {
    var b := index[k + 1..];
    if NothingAfter(index, index[k], live) {
      forall j | j in b ensures j !in live {
        var m :| 0 <= m < |b| && b[m] == j;
        assert index[k + 1 + m] == j;
      }
    } else {
      var c, d :| 0 <= c < d < |index| && index[c] == index[k] && index[d] in live;
      assert c == k && b[d - k - 1] == index[d];
    }
  }

  /** Listings show their ids. */
  lemma {:induction false} CollectShows(a: seq<string>, b: seq<string>, at: Table)
    requires (forall i | i in a || i in b :: i in at) && (forall i | i in at :: at[i].interruptId == i)
    ensures Collect(a, at) == Collect(b, at) <==> a == b
  {
    CollectAt(a, at);
    CollectAt(b, at);
    if Collect(a, at) == Collect(b, at) {
      forall k | 0 <= k < |a| ensures a[k] == b[k] {
        assert Collect(a, at)[k].interruptId == a[k];
        assert Collect(b, at)[k].interruptId == b[k];
      }
    }
  }

  lemma {:induction false} CollectAt(ids: seq<string>, at: Table)
    requires forall i | i in ids :: i in at
    ensures |Collect(ids, at)| == |ids| && forall k | 0 <= k < |ids| :: Collect(ids, at)[k] == at[ids[k]]
  {
    if ids != [] {
      assert ids == [ids[0]] + ids[1..];
      CollectAt(ids[1..], at);
    }
  }

  /** Which stale saves change a reply: an id that no listing has dropped from the index since it was swept,
      saved again, stands in its old place in Redis and last in memory. The next listing of its run is the
      same in both if and only if no request listed after it is still held; and then the stores stay
      related, as after any other save. */
  lemma StaleSaveExactly(st: Store, db: R.Db, p: string, stale: set<(string, string)>, q: Request)
    requires Sim(st, db, p, stale) && R.Clean(q.runId) && q.interruptId !in Listed(st, q.runId).at
    ensures
      var harmless := NothingAfter(R.Index(db, p, q.runId), q.interruptId, Listed(st, q.runId).at.Keys);
      && (RedisApply(R.RSave(db, p, q), p, List(q.runId)).1 == MemApply(Saved(st, q), List(q.runId)).1 <==> harmless)
      && (harmless ==> Sim(Saved(st, q), R.RSave(db, p, q), p, stale - {(q.runId, q.interruptId)}))
  {
    hide RunSim, StoreKept, Ordered, Saved, Listed, RequestOf, AddOnce, Keep, Collect, NothingAfter, R.Fetch, R.Index,
      R.FetchEpoch, R.RSave, R.Rewrite, R.Present, R.FetchAll, R.Tidy, R.Clean;
    var r, i := q.runId, q.interruptId;
    var d, index := Listed(st, r), R.Index(db, p, r);
    KeptOrdered(st, r);
    StalePut(d, index, stale, q);
    if NothingAfter(index, i, d.at.Keys) {
      SavedSim(st, db, p, stale, q, stale - {(r, i)});
    }
    SavedReads(st, q);
    SaveReads(db, p, q);
    var n, db1 := Saved(st, q), R.RSave(db, p, q);
    assert forall x :: R.Fetch(db1, p, r, x) == RequestOf(n, r, x);
    FetchAllIsCollect(db1, p, n, r, AddOnce(index, i));
    ListingsAgree(n, r, AddOnce(index, i));
  }

  /** The index after a stale save against the order in memory. */
  lemma StalePut(d: Requests, index: seq<string>, stale: set<(string, string)>, q: Request)
    requires Ordered(d) && RunSim(d, index, stale, q.runId) && q.interruptId !in d.at
    ensures
      var harmless := NothingAfter(index, q.interruptId, d.at.Keys);
      && (Keep(AddOnce(index, q.interruptId), Put(d, q).at.Keys) == Put(d, q).order <==> harmless)
      && (harmless ==> RunSim(Put(d, q), AddOnce(index, q.interruptId), stale - {(q.runId, q.interruptId)}, q.runId))
  {
    hide Keep, NothingAfter;
    assert Put(d, q).at.Keys == d.at.Keys + {q.interruptId};
    BackInPlace(index, q.interruptId, d.at.Keys);
    assert q.interruptId !in d.order;
  }

  /** What Redis collects along an index is what memory lists exactly when the index gives its order. */
  lemma ListingsAgree(n: Store, r: string, index: seq<string>)
    requires StoreKept(n)
    ensures
      var d := Listed(n, r);
      Collect(index, d.at) == Collect(d.order, d.at) <==> Keep(index, d.at.Keys) == d.order
  {
    hide Collect, Keep;
    var d := Listed(n, r);
    KeptOrdered(n, r);
    assert r in n.requests ==> RunKept(r, n.requests[r]);
    CollectKept(index, d.at, d.at.Keys);
    CollectShows(Keep(index, d.at.Keys), d.order, d.at);
  }

  /** Saving a swept id again before its run is listed: in memory it goes last, in Redis it takes its
      old place in the index. */
  lemma StaleSaveDiffers(p: string, a: Request, b: Request, now: int)
    requires a.runId == b.runId && R.Clean(a.runId) && a.interruptId != b.interruptId && Due(a, now) && !Due(b, now)
    ensures
      var st := Saved(Swept(Saved(Saved(EMPTY_STORE, a), b), now), a);
      var db := R.RSave(R.RSweep(R.RSave(R.RSave(map[], p, a), p, b), p, now), p, a);
      && MemApply(st, List(a.runId)).1 == Listing([b, a])
      && RedisApply(db, p, List(a.runId)).1 == Listing([a, b])
  {
    hide Saved, Swept, Collect, Due, R.RSave, R.RSweep, R.Fetch, R.Index, R.FetchAll, R.Clean;
    StaleSaveInMemory(a, b, now);
    StaleSaveInRedis(p, a, b, now);
  }

  lemma StaleSaveInMemory(a: Request, b: Request, now: int)
    requires a.runId == b.runId && a.interruptId != b.interruptId && Due(a, now) && !Due(b, now)
    ensures
      var d := Listed(Saved(Swept(Saved(Saved(EMPTY_STORE, a), b), now), a), a.runId);
      Collect(d.order, d.at) == [b, a]
  {
    hide Due, Undue, Collect;
    var r, i, j := a.runId, a.interruptId, b.interruptId;
    var st := Saved(Saved(EMPTY_STORE, a), b);
    var d := Requests([i, j], map[i := a, j := b]);
    assert Listed(st, r) == d;
    UndueOfTwo(d, a, b, now);
    var kept := Requests([j], map[j := b]);
    assert Listed(Swept(st, now), r) == kept;
    assert Put(kept, a).order == [j, i];
    CollectTwo(b, a, Put(kept, a).at);
  }

  lemma UndueOfTwo(d: Requests, a: Request, b: Request, now: int)
    requires a.interruptId != b.interruptId && Due(a, now) && !Due(b, now)
    requires d == Requests([a.interruptId, b.interruptId], map[a.interruptId := a, b.interruptId := b])
    ensures Undue(d, now) == Requests([b.interruptId], map[b.interruptId := b])
    ensures Undue(d, now).at != map[]
  {
    var live := d.at.Keys - DueIds(d.at, now);
    assert live == {b.interruptId};
    assert d.order[1..] == [b.interruptId] && [b.interruptId][1..] == [];
    assert Keep([b.interruptId], live) == [b.interruptId] + Keep([], live);
    assert b.interruptId in Undue(d, now).at;
  }

  lemma StaleSaveInRedis(p: string, a: Request, b: Request, now: int)
    requires a.runId == b.runId && R.Clean(a.runId) && a.interruptId != b.interruptId && Due(a, now) && !Due(b, now)
    ensures
      var db := R.RSave(R.RSweep(R.RSave(R.RSave(map[], p, a), p, b), p, now), p, a);
      R.FetchAll(db, p, a.runId, R.Index(db, p, a.runId)) == [a, b]
  {
    hide R.RSave, R.RSweep, R.Fetch, R.Index, R.FetchAll, R.Tidy, R.Clean, Due;
    EmptyReads(p, a.runId, b.interruptId);
    SaveReads(map[], p, a);
    var db1 := R.RSave(map[], p, a);
    SaveReads(db1, p, b);
    assert R.Index(db1, p, a.runId) == [a.interruptId];
    var db2 := R.RSave(db1, p, b);
    assert R.Index(db2, p, a.runId) == [a.interruptId, b.interruptId];
    SweepReads(db2, p, now);
    SaveReads(R.RSweep(db2, p, now), p, a);
    var db := R.RSave(R.RSweep(db2, p, now), p, a);
    assert R.Index(db, p, a.runId) == [a.interruptId, b.interruptId];
    FetchTwo(p, a, b, db);
  }

  lemma EmptyReads(p: string, r: string, i: string)
    ensures R.Index(map[], p, r) == [] && R.Fetch(map[], p, r, i) == None
  {
  }

  lemma CollectTwo(a: Request, b: Request, at: Table)
    requires a.interruptId in at && b.interruptId in at && at[a.interruptId] == a && at[b.interruptId] == b
    ensures Collect([a.interruptId, b.interruptId], at) == [a, b]
  {
    assert [a.interruptId, b.interruptId][1..] == [b.interruptId] && [b.interruptId][1..] == [];
    assert Collect([b.interruptId], at) == [b] + Collect([], at);
  }

  lemma FetchTwo(p: string, a: Request, b: Request, db: R.Db)
    requires R.Fetch(db, p, a.runId, a.interruptId) == Some(a) && R.Fetch(db, p, a.runId, b.interruptId) == Some(b)
    ensures R.FetchAll(db, p, a.runId, [a.interruptId, b.interruptId]) == [a, b]
  {
    hide R.Fetch;
    assert [a.interruptId, b.interruptId][1..] == [b.interruptId] && [b.interruptId][1..] == [];
    assert R.FetchAll(db, p, a.runId, [b.interruptId]) == [b] + R.FetchAll(db, p, a.runId, []);
  }
}
