/** The interrupt manager: epoch counters, creation under a limit, one-shot resolution, expiry
    (governai/runtime/interrupts.py, lines 258-382). */
module InterruptManager {
  import opened Prelude
  import opened Sequences
  import opened RunStates
  import opened Interrupts

  // ---- the manager's operations on the dictionaries ----

  function Bumped(st: Store, runId: string): Store {
    st.(epochs := st.epochs[runId := EpochOf(st, runId) + 1])
  }

  /** What listing one run's pending requests leaves behind. */
  function AgedRun(st: Store, runId: string, now: int): Store {
    if runId in st.requests
    then st.(requests := st.requests[runId := Requests(st.requests[runId].order,
        AgedTable(st.requests[runId].at, now))])
    else st
  }

  function PendingIn(st: Store, runId: string, epoch: Option<int>, now: int): seq<Request> {
    LiveRequests(Listed(st, runId), epoch, now)
  }

  // ---- the order of a listing ----

  /** Text order, character by character. */
  predicate TextUpTo(a: string, b: string) {
    a == "" || (b != "" && (a[0] < b[0] || (a[0] == b[0] && TextUpTo(a[1..], b[1..]))))
  }

  predicate UpTo(a: Request, b: Request) {
    a.createdAt < b.createdAt || (a.createdAt == b.createdAt && TextUpTo(a.interruptId, b.interruptId))
  }

  function Insert(q: Request, rs: seq<Request>): seq<Request> {
    if rs == [] then [q]
    else if UpTo(q, rs[0]) then [q] + rs
    else [rs[0]] + Insert(q, rs[1..])
  }

  /** Sorted by creation time and id. */
  function InOrder(rs: seq<Request>): seq<Request> {
    if rs == [] then [] else Insert(rs[0], InOrder(rs[1..]))
  }

  ghost predicate Ascending(rs: seq<Request>) {
    forall i, j | 0 <= i < j < |rs| :: UpTo(rs[i], rs[j])
  }

  lemma {:induction false} TextTotal(a: string, b: string)
    ensures TextUpTo(a, b) || TextUpTo(b, a)
    decreases |a|
  {
    if a != "" && b != "" && a[0] == b[0] {
      TextTotal(a[1..], b[1..]);
    }
  }

  lemma {:induction false} TextTransitive(a: string, b: string, c: string)
    requires TextUpTo(a, b) && TextUpTo(b, c)
    ensures TextUpTo(a, c)
    decreases |a|
  {
    if a != "" && a[0] == b[0] && b[0] == c[0] {
      TextTransitive(a[1..], b[1..], c[1..]);
    }
  }

  lemma UpToTotal(a: Request, b: Request)
    ensures UpTo(a, b) || UpTo(b, a)
  {
    TextTotal(a.interruptId, b.interruptId);
  }

  lemma UpToTransitive(a: Request, b: Request, c: Request)
    requires UpTo(a, b) && UpTo(b, c)
    ensures UpTo(a, c)
  {
    if a.createdAt == b.createdAt == c.createdAt {
      TextTransitive(a.interruptId, b.interruptId, c.interruptId);
    }
  }

  lemma {:induction false} InsertKeeps(q: Request, rs: seq<Request>)
    ensures multiset(Insert(q, rs)) == multiset{q} + multiset(rs) && |Insert(q, rs)| == |rs| + 1
  {
    hide UpTo;
    if rs != [] {
      assert rs == [rs[0]] + rs[1..];
      InsertKeeps(q, rs[1..]);
    }
  }

  lemma FirstAscends(first: Request, rest: seq<Request>)
    requires Ascending(rest) && forall x | x in rest :: UpTo(first, x)
    ensures Ascending([first] + rest)
  {
    hide UpTo;
  }

  lemma {:induction false} InsertSorts(q: Request, rs: seq<Request>)
    requires Ascending(rs)
    ensures Ascending(Insert(q, rs))
  {
    hide UpTo;
    if rs == [] {
    } else if UpTo(q, rs[0]) {
      forall x | x in rs ensures UpTo(q, x) {
        var k :| 0 <= k < |rs| && rs[k] == x;
        if k > 0 {
          UpToTransitive(q, rs[0], x);
        }
      }
      FirstAscends(q, rs);
    } else {
      var rest := rs[1..];
      UpToTotal(q, rs[0]);
      InsertSorts(q, rest);
      InsertKeeps(q, rest);
      forall x | x in Insert(q, rest) ensures UpTo(rs[0], x) {
        assert x in multiset{q} + multiset(rest);
      }
      FirstAscends(rs[0], Insert(q, rest));
    }
  }

  /** A listing is a permutation, in ascending order of creation time and id. */
  lemma {:induction false} OrderSorts(rs: seq<Request>)
    ensures Ascending(InOrder(rs)) && multiset(InOrder(rs)) == multiset(rs) && |InOrder(rs)| == |rs|
  {
    if rs != [] {
      OrderSorts(rs[1..]);
      InsertSorts(rs[0], InOrder(rs[1..]));
      InsertKeeps(rs[0], InOrder(rs[1..]));
      assert rs == [rs[0]] + rs[1..];
    }
  }

  /** The limit counts live requests of the given epoch; a negative limit is none. */
  function Created(st: Store, runId: string, stepName: string, ttl: int, epoch: Option<int>, maxPending: Option<int>,
                   now: int, newId: string): (Store, Result<Request, InterruptError>)
  {
    var limited := maxPending.Some? && maxPending.value >= 0;
    var st1 := if limited then AgedRun(st, runId, now) else st;
    if limited && |PendingIn(st, runId, epoch, now)| >= maxPending.value then (st1, Failure(TooManyPending))
    else
      var q := Request(newId, runId, stepName, epoch.GetOr(EpochOf(st, runId)), now, now + ttl, Pending);
      (Saved(st1, q), Success(q))
  }

  function Looked(st: Store, runId: string, id: string, now: int): (Store, Option<Request>) {
    match RequestOf(st, runId, id)
    case None => (st, None)
    case Some(q) =>
      if !q.status.Pending? then (st, None)
      else if q.expiresAt <= now then (Saved(st, q.(status := Expired)), None)
      else (st, Some(q))
  }

  function Settled(st: Store, runId: string, id: string, epoch: Option<int>, now: int)
    : (Store, Result<Request, InterruptError>)
  {
    match RequestOf(st, runId, id)
    case None => (st, Failure(UnknownInterrupt))
    case Some(q) =>
      if !q.status.Pending? then (st, Failure(NotPending))
      else if q.expiresAt <= now then (Saved(st, q.(status := Expired)), Failure(HasExpired(q.expiresAt)))
      else if epoch.Some? && q.epoch != epoch.value then (st, Failure(EpochMismatch))
      else (Saved(st, q.(status := Resolved)), Success(q.(status := Resolved)))
  }

  function Cleared(st: Store, runId: string, now: int): Store {
    if runId !in st.requests then st
    else st.(requests := WithRun(st.requests, runId,
        Restrict(st.requests[runId], LiveIds(st.requests[runId].at, None, now))))
  }

  class InterruptManager {
    const store: InMemoryInterruptStore
    const defaultTtl: int

    constructor (store: InMemoryInterruptStore, defaultTtl: int)
      ensures this.store == store && this.defaultTtl == defaultTtl
    {
      this.store := store;
      this.defaultTtl := defaultTtl;
    }

    method BumpEpoch(runId: string) returns (epoch: int)
      modifies store
      ensures store.View() == Bumped(old(store.View()), runId) && epoch == EpochOf(store.View(), runId)
    {
      epoch := (if runId in store.epochs then store.epochs[runId] else 0) + 1;
      store.SetEpoch(runId, epoch);
    }

    method Create(runId: string, stepName: string, ttlSeconds: Option<int>, epoch: Option<int>, maxPending: Option<int>,
                  now: int, newId: string) returns (r: Result<Request, InterruptError>)
      requires StoreKept(store.View())
      modifies store
      ensures (store.View(), r) ==
        Created(old(store.View()), runId, stepName, ttlSeconds.GetOr(defaultTtl), epoch, maxPending, now, newId)
    {
      if maxPending.Some? && maxPending.value >= 0 {
        OrderSorts(PendingIn(store.View(), runId, epoch, now));
        var pending := ListPending(runId, epoch, now);
        if |pending| >= maxPending.value {
          return Failure(TooManyPending);
        }
      }
      var ttl := ttlSeconds.GetOr(defaultTtl);
      var resolvedEpoch := match epoch
        case Some(e) => e
        case None => if runId in store.epochs then store.epochs[runId] else 0;
      var q := Request(newId, runId, stepName, resolvedEpoch, now, now + ttl, Pending);
      store.SaveRequest(q);
      return Success(q);
    }

    method GetPending(runId: string, id: string, now: int) returns (r: Option<Request>)
      requires StoreKept(store.View())
      modifies store
      ensures (store.View(), r) == Looked(old(store.View()), runId, id, now)
    {
      var q := RequestOf(store.View(), runId, id);
      if q.None? || !q.value.status.Pending? {
        return None;
      }
      if q.value.expiresAt <= now {
        store.SaveRequest(q.value.(status := Expired));
        return None;
      }
      return q;
    }

    /** Every pending request past its expiry is marked; the live ones come back sorted. */
    method ListPending(runId: string, epoch: Option<int>, now: int) returns (out: seq<Request>)
      requires StoreKept(store.View())
      modifies store
      ensures store.View() == AgedRun(old(store.View()), runId, now)
      ensures out == InOrder(PendingIn(old(store.View()), runId, epoch, now))
    {
      hide InOrder, RunKept, Live, Aged, Put, HalfAged, Collect, Keep, LiveIds, AgedTable;
      NoneLive(epoch, now);
      out := [];
      NothingToOrder();
      if runId !in store.requests {
        return;
      }
      ghost var d := store.requests[runId];
      var keys, at := store.requests[runId].order, store.requests[runId].at;
      RunKeptIds(runId, d);
      HalfAgedNone(d, now);
      NoneAmong(at, LiveIds(at, epoch, now));
      assert keys[..0] == [];
      for i := 0 to |keys|
        invariant store.requests == old(store.requests)[runId := HalfAged(d, keys[..i], now)]
        invariant store.epochs == old(store.epochs)
        invariant out == Collect(Keep(keys[..i], LiveIds(at, epoch, now)), at)
      {
        assert keys[..i + 1] == keys[..i] + [keys[i]] && keys[i] in at;
        var q := at[keys[i]];
        LiveStep(keys[..i], keys[i], at, epoch, now);
        HalfAgedStep(d, i, now);
        if q.status.Pending? && q.expiresAt <= now {
          store.SaveRequest(q.(status := Expired));
        } else if q.status.Pending? && (epoch.None? || q.epoch == epoch.value) {
          out := out + [q];
        }
      }
      assert keys[..|keys|] == keys;
      HalfAgedAll(d, now);
      out := InOrder(out);
    }

    /** The request created last, by creation time and id. */
    method GetLatestPending(runId: string, epoch: Option<int>, now: int) returns (r: Option<Request>)
      requires StoreKept(store.View())
      modifies store
      ensures store.View() == AgedRun(old(store.View()), runId, now)
      ensures
        var pending := PendingIn(old(store.View()), runId, epoch, now);
        && (r.None? <==> pending == [])
        && (r.Some? ==> r.value in pending && forall q | q in pending :: q == r.value || UpTo(q, r.value))
    {
      hide UpTo, PendingIn, AgedRun, InOrder;
      ghost var pending := PendingIn(store.View(), runId, epoch, now);
      var out := ListPending(runId, epoch, now);
      OrderSorts(pending);
      if out == [] {
        return None;
      }
      LastIsLatest(pending, out);
      return Some(out[|out| - 1]);
    }

    method Resolve(runId: string, id: string, epoch: Option<int>, now: int) returns (r: Result<Request, InterruptError>)
      requires StoreKept(store.View())
      modifies store
      ensures (store.View(), r) == Settled(old(store.View()), runId, id, epoch, now)
    {
      var found := RequestOf(store.View(), runId, id);
      if found.None? {
        return Failure(UnknownInterrupt);
      }
      var q := found.value;
      if !q.status.Pending? {
        return Failure(NotPending);
      }
      if q.expiresAt <= now {
        store.SaveRequest(q.(status := Expired));
        return Failure(HasExpired(q.expiresAt));
      }
      if epoch.Some? && q.epoch != epoch.value {
        return Failure(EpochMismatch);
      }
      store.SaveRequest(q.(status := Resolved));
      return Success(q.(status := Resolved));
    }

    /** Deletes the settled and the expired requests of one run and counts them. */
    method ClearExpired(runId: string, now: int) returns (removed: nat)
      requires StoreKept(store.View())
      modifies store
      ensures store.View() == Cleared(old(store.View()), runId, now)
      ensures removed == |DeadIds(Listed(old(store.View()), runId).at, now)|
    {
      hide RunKept, Ordered, Restrict, WithRun, Deleted, LiveIds, Outside;
      removed := 0;
      if runId !in store.requests {
        return;
      }
      ghost var st := store.View();
      ghost var d := st.requests[runId];
      var keys, at := store.requests[runId].order, store.requests[runId].at;
      ghost var live := LiveIds(at, None, now);
      assert RunKept(runId, d);
      RunKeptOrder(runId, d);
      OutsideAll(keys, at, live);
      NothingCleared(st.requests, runId);
      for i := 0 to |keys|
        invariant removed == |Outside(keys[..i], at, live)|
        invariant store.View() ==
          st.(requests := WithRun(st.requests, runId, Restrict(d, d.at.Keys - Outside(keys[..i], at, live))))
      {
        OutsideSnoc(keys, i, at, live);
        IsLive(at, keys[i], now);
        if !at[keys[i]].status.Pending? || at[keys[i]].expiresAt <= now {
          DeleteNext(st, runId, d, Outside(keys[..i], at, live), keys[i], store.View());
          store.DeleteRequest(runId, keys[i]);
          removed := removed + 1;
        }
      }
      RestrictInside(d, live);
    }
  }

  lemma NothingToOrder()
    ensures InOrder([]) == []
  {
  }

  lemma LastIsLatest(rs: seq<Request>, out: seq<Request>)
    requires Ascending(out) && multiset(out) == multiset(rs) && out != []
    ensures out[|out| - 1] in rs && forall q | q in rs :: q == out[|out| - 1] || UpTo(q, out[|out| - 1])
  {
    hide UpTo;
    assert out[|out| - 1] in multiset(rs);
    forall q | q in rs ensures q == out[|out| - 1] || UpTo(q, out[|out| - 1]) {
      assert q in multiset(out);
      var i :| 0 <= i < |out| && out[i] == q;
    }
  }

  lemma RunKeptOrder(r: string, d: Requests)
    requires RunKept(r, d)
    ensures Ordered(d) && NoDuplicates(d.order) && (forall i :: i in d.order <==> i in d.at)
  {
  }

  lemma IsLive(at: Table, id: string, now: int)
    requires id in at
    ensures id in LiveIds(at, None, now) <==> at[id].status.Pending? && at[id].expiresAt > now
  {
  }

  // ---- the loop of ClearExpired ----

  function DeadIds(at: Table, now: int): set<string> {
    at.Keys - LiveIds(at, None, now)
  }

  lemma DeleteNext(st: Store, r: string, d: Requests, gone: set<string>, id: string, now: Store)
    requires r in st.requests && Ordered(d) && id in d.at && id !in gone
    requires now == st.(requests := WithRun(st.requests, r, Restrict(d, d.at.Keys - gone)))
    ensures Deleted(now, r, id) == st.(requests := WithRun(st.requests, r, Restrict(d, d.at.Keys - (gone + {id}))))
  {
    hide Ordered, Remove;
    assert id in Restrict(d, d.at.Keys - gone).at;
    RemoveNext(d, gone, id);
  }

  lemma NothingCleared(requests: map<string, Requests>, r: string)
    requires r in requests && RunKept(r, requests[r])
    ensures WithRun(requests, r, Restrict(requests[r], requests[r].at.Keys - {})) == requests
  {
    var d := requests[r];
    RestrictAll(d);
    assert d.at.Keys - {} == d.at.Keys;
    assert requests[r := d] == requests;
  }

  /** The ids of a list that a table holds but a set does not. */
  function Outside(ids: seq<string>, at: Table, live: set<string>): set<string> {
    set i | i in ids && i in at && i !in live
  }

  lemma OutsideSnoc(ids: seq<string>, k: nat, at: Table, live: set<string>)
    requires k < |ids| && NoDuplicates(ids) && ids[k] in at
    ensures ids[k] !in Outside(ids[..k], at, live)
    ensures Outside(ids[..k + 1], at, live) == Outside(ids[..k], at, live) + (if ids[k] in live then {} else {ids[k]})
  {
    assert ids[..k + 1] == ids[..k] + [ids[k]];
  }

  lemma OutsideAll(ids: seq<string>, at: Table, live: set<string>)
    requires forall i :: i in ids <==> i in at
    ensures ids[..|ids|] == ids && Outside(ids, at, live) == at.Keys - live
    ensures at.Keys - (at.Keys - live) == at.Keys * live
    ensures ids[..0] == [] && Outside([], at, live) == {}
  {
  }

  lemma RestrictInside(d: Requests, live: set<string>)
    requires Ordered(d)
    ensures Restrict(d, d.at.Keys * live) == Restrict(d, live)
  {
    KeepCongruent(d.order, d.at.Keys * live, live);
  }

  // ---- the loop of ListPending ----

  lemma RunKeptIds(r: string, d: Requests)
    requires RunKept(r, d)
    ensures NoDuplicates(d.order) && (forall i :: i in d.order <==> i in d.at)
    ensures forall i | i in d.at :: d.at[i].runId == r && d.at[i].interruptId == i
  {
  }

  /** The dictionary while a listing is at work: the ids seen so far are aged. */
  function HalfAged(d: Requests, seen: seq<string>, now: int): Requests {
    Requests(d.order, map i | i in d.at :: if i in seen then Aged(d.at[i], now) else d.at[i])
  }

  lemma HalfAgedNone(d: Requests, now: int)
    ensures HalfAged(d, [], now) == d
  {
  }

  lemma HalfAgedAll(d: Requests, now: int)
    requires forall i :: i in d.order <==> i in d.at
    ensures HalfAged(d, d.order, now) == Requests(d.order, AgedTable(d.at, now))
  {
    hide Aged;
  }

  lemma HalfAgedStep(d: Requests, k: nat, now: int)
    requires k < |d.order| && NoDuplicates(d.order) && (forall i :: i in d.order <==> i in d.at)
    requires d.at[d.order[k]].interruptId == d.order[k]
    ensures
      var q := d.at[d.order[k]];
      var h := HalfAged(d, d.order[..k], now);
      HalfAged(d, d.order[..k + 1], now) ==
        if q.status.Pending? && q.expiresAt <= now then Put(h, q.(status := Expired)) else h
  {
    assert d.order[..k + 1] == d.order[..k] + [d.order[k]];
    assert d.order[k] !in d.order[..k];
  }

  lemma NoneAmong(at: Table, live: set<string>)
    ensures Collect(Keep([], live), at) == []
  {
  }

  lemma NoneLive(epoch: Option<int>, now: int)
    ensures LiveRequests(NONE, epoch, now) == []
  {
  }

  lemma LiveStep(ids: seq<string>, id: string, at: Table, epoch: Option<int>, now: int)
    requires id in at
    ensures Collect(Keep(ids + [id], LiveIds(at, epoch, now)), at)
         == Collect(Keep(ids, LiveIds(at, epoch, now)), at) + (if Live(at[id], epoch, now) then [at[id]] else [])
    ensures Live(at[id], epoch, now) <==>
      at[id].status.Pending? && at[id].expiresAt > now && (epoch.None? || at[id].epoch == epoch.value)
  {
    KeepSnoc(ids, id, LiveIds(at, epoch, now));
    CollectSnoc(Keep(ids, LiveIds(at, epoch, now)), id, at);
    assert Keep(ids, LiveIds(at, epoch, now)) + [] == Keep(ids, LiveIds(at, epoch, now));
  }

  // ---- any sequence of calls, as time passes ----

  datatype Call =
    | Bump(runId: string)
    | Create(runId: string, stepName: string, ttl: int, epoch: Option<int>, maxPending: Option<int>)
    | GetPending(runId: string, id: string)
    | ListPending(runId: string, epoch: Option<int>)
    | Resolve(runId: string, id: string, epoch: Option<int>)
    | ClearExpired(runId: string)
    | Sweep
    | Wait(seconds: nat)

  /** A successful resolution: the request as it was found, the epoch given, and the time. */
  datatype Resolution = Resolution(request: Request, given: Option<int>, at: int)

  /** The store, the clock, the number of ids issued, and the resolutions made so far. */
  datatype Desk = Desk(store: Store, now: int, issued: nat, resolutions: seq<Resolution>)

  function Serve(d: Desk, call: Call): Desk {
    match call
    case Bump(r) => d.(store := Bumped(d.store, r))
    case Create(r, step, ttl, epoch, limit) =>
      d.(store := Created(d.store, r, step, ttl, epoch, limit, d.now, Uuid(d.issued)).0, issued := d.issued + 1)
    case GetPending(r, i) => d.(store := Looked(d.store, r, i, d.now).0)
    case ListPending(r, _) => d.(store := AgedRun(d.store, r, d.now))
    case Resolve(r, i, epoch) =>
      var (st, res) := Settled(d.store, r, i, epoch, d.now);
      d.(store := st,
         resolutions := if res.Success? then d.resolutions + [Resolution(RequestOf(d.store, r, i).value, epoch, d.now)]
           else d.resolutions)
    case ClearExpired(r) => d.(store := Cleared(d.store, r, d.now))
    case Sweep => d.(store := Swept(d.store, d.now))
    case Wait(s) => d.(now := d.now + s)
  }

  function ServeAll(d: Desk, calls: seq<Call>): Desk
    decreases |calls|
  {
    if calls == [] then d else ServeAll(Serve(d, calls[0]), calls[1..])
  }

  /** A request may disappear, stay, or leave the pending status once and for all. */
  predicate Moves(before: Option<Request>, after: Option<Request>) {
    || after.None? || after == before
    || (before.Some? && before.value.status.Pending? && !after.value.status.Pending?
        && after.value == before.value.(status := after.value.status))
  }

  ghost predicate RequestsOk(st: Store, issued: nat) {
    forall r, i | RequestOf(st, r, i).Some? ::
      |i| <= issued && RequestOf(st, r, i).value.runId == r && RequestOf(st, r, i).value.interruptId == i
  }

  predicate Proper(res: Resolution) {
    && res.request.status.Pending? && res.at < res.request.expiresAt
    && (res.given.None? || res.given.value == res.request.epoch)
  }

  predicate SameRequest(a: Resolution, b: Resolution) {
    a.request.runId == b.request.runId && a.request.interruptId == b.request.interruptId
  }

  /** No request a resolution has settled is pending any more. */
  ghost predicate Spent(st: Store, issued: nat, res: Resolution) {
    var q := RequestOf(st, res.request.runId, res.request.interruptId);
    |res.request.interruptId| <= issued && (q.Some? ==> !q.value.status.Pending?)
  }

  ghost predicate DeskOk(d: Desk) {
    && RequestsOk(d.store, d.issued)
    && (forall k | 0 <= k < |d.resolutions| :: Proper(d.resolutions[k]) && Spent(d.store, d.issued, d.resolutions[k]))
    && (forall j, k | 0 <= j < k < |d.resolutions| :: !SameRequest(d.resolutions[j], d.resolutions[k]))
  }

  lemma SavedLookup(st: Store, q: Request, r: string, i: string)
    ensures RequestOf(Saved(st, q), r, i) == if r == q.runId && i == q.interruptId then Some(q) else RequestOf(st, r, i)
  {
  }

  lemma AgedLookup(st: Store, run: string, now: int, r: string, i: string)
    ensures
      var q := RequestOf(st, r, i);
      RequestOf(AgedRun(st, run, now), r, i) == if r == run && q.Some? then Some(Aged(q.value, now)) else q
  {
  }

  lemma ShrunkLookup(st: Store, run: string, ids: set<string>, r: string, i: string)
    requires run in st.requests
    ensures
      var n := st.(requests := WithRun(st.requests, run, Restrict(st.requests[run], ids)));
      RequestOf(n, r, i) == if r == run && i !in ids then None else RequestOf(st, r, i)
  {
  }

  lemma SweptLookup(st: Store, now: int, r: string, i: string)
    ensures
      var q := RequestOf(st, r, i);
      RequestOf(Swept(st, now), r, i) == if q.Some? && Due(q.value, now) then None else q
  {
  }

  /** What one call does to one request: nothing comes back to pending, and a new id is new. */
  lemma CallMoves(d: Desk, call: Call, r: string, i: string)
    requires RequestsOk(d.store, d.issued)
    ensures
      var after := RequestOf(Serve(d, call).store, r, i);
      || Moves(RequestOf(d.store, r, i), after)
      || (call.Create? && i == Uuid(d.issued) && after.value.runId == r && after.value.interruptId == i)
  {
    hide RequestOf, Saved, AgedRun, Swept, WithRun, Restrict, LiveIds, LiveRequests;
    match call
    case Create(run, step, ttl, epoch, limit) =>
      AgedLookup(d.store, run, d.now, r, i);
      var q := Request(Uuid(d.issued), run, step, epoch.GetOr(EpochOf(d.store, run)), d.now, d.now + ttl, Pending);
      SavedLookup(d.store, q, r, i);
      SavedLookup(AgedRun(d.store, run, d.now), q, r, i);
    case GetPending(run, id) =>
      LookedMoves(d, run, id, r, i);
    case ListPending(run, _) =>
      AgedLookup(d.store, run, d.now, r, i);
    case Resolve(run, id, epoch) =>
      SettledMoves(d, run, id, epoch, r, i);
    case ClearExpired(run) =>
      if run in d.store.requests {
        ShrunkLookup(d.store, run, LiveIds(d.store.requests[run].at, None, d.now), r, i);
      }
    case Sweep =>
      SweptLookup(d.store, d.now, r, i);
    case Bump(run) =>
      BumpedLookup(d.store, run, r, i);
    case Wait(_) =>
  }

  lemma BumpedLookup(st: Store, run: string, r: string, i: string)
    ensures RequestOf(Bumped(st, run), r, i) == RequestOf(st, r, i)
  {
  }

  lemma LookedMoves(d: Desk, run: string, id: string, r: string, i: string)
    requires RequestsOk(d.store, d.issued)
    ensures Moves(RequestOf(d.store, r, i), RequestOf(Looked(d.store, run, id, d.now).0, r, i))
  {
    hide RequestOf, Saved;
    var q := RequestOf(d.store, run, id);
    if q.Some? {
      SavedLookup(d.store, q.value.(status := Expired), r, i);
    }
  }

  lemma SettledMoves(d: Desk, run: string, id: string, epoch: Option<int>, r: string, i: string)
    requires RequestsOk(d.store, d.issued)
    ensures Moves(RequestOf(d.store, r, i), RequestOf(Settled(d.store, run, id, epoch, d.now).0, r, i))
    ensures Settled(d.store, run, id, epoch, d.now).1.Success? ==>
      && RequestOf(d.store, run, id).Some?
      && RequestOf(Settled(d.store, run, id, epoch, d.now).0, run, id)
         == Some(RequestOf(d.store, run, id).value.(status := Resolved))
  {
    hide RequestOf, Saved;
    var q := RequestOf(d.store, run, id);
    if q.Some? {
      SavedLookup(d.store, q.value.(status := Expired), r, i);
      SavedLookup(d.store, q.value.(status := Resolved), r, i);
      SavedLookup(d.store, q.value.(status := Resolved), run, id);
    }
  }

  lemma RequestsStayOk(d: Desk, call: Call)
    requires RequestsOk(d.store, d.issued)
    ensures RequestsOk(Serve(d, call).store, Serve(d, call).issued)
  {
    hide RequestOf, Serve;
    var n := Serve(d, call);
    Issues(d, call);
    forall r, i | RequestOf(n.store, r, i).Some?
      ensures |i| <= n.issued && RequestOf(n.store, r, i).value.runId == r
        && RequestOf(n.store, r, i).value.interruptId == i
    {
      CallMoves(d, call, r, i);
    }
  }

  lemma Issues(d: Desk, call: Call)
    ensures Serve(d, call).issued == d.issued + if call.Create? then 1 else 0
  {
    hide Settled, Created, Looked, AgedRun, Cleared, Swept, Bumped;
  }

  lemma StaysSpent(d: Desk, call: Call, res: Resolution)
    requires RequestsOk(d.store, d.issued) && Spent(d.store, d.issued, res)
    ensures Spent(Serve(d, call).store, Serve(d, call).issued, res)
  {
    hide RequestOf, Serve;
    Issues(d, call);
    CallMoves(d, call, res.request.runId, res.request.interruptId);
  }

  /** The only call that adds a resolution, and what it adds. */
  lemma ResolutionMade(d: Desk, call: Call)
    requires RequestsOk(d.store, d.issued)
    ensures
      var n := Serve(d, call);
      || n.resolutions == d.resolutions
      || (exists res: Resolution ::
           n.resolutions == d.resolutions + [res] && Proper(res) && Spent(n.store, n.issued, res)
            && RequestOf(d.store, res.request.runId, res.request.interruptId) == Some(res.request))
  {
    hide RequestOf, Created, Looked, AgedRun, Cleared, Swept, Bumped, Saved;
    if call.Resolve? {
      var n := Serve(d, call);
      var q := RequestOf(d.store, call.runId, call.id);
      SettledMoves(d, call.runId, call.id, call.epoch, call.runId, call.id);
      if n.resolutions != d.resolutions {
        var res := Resolution(q.value, call.epoch, d.now);
        assert n.resolutions == d.resolutions + [res] && Proper(res) && Spent(n.store, n.issued, res);
      }
    }
  }

  lemma CallKeepsDeskOk(d: Desk, call: Call)
    requires DeskOk(d)
    ensures DeskOk(Serve(d, call))
  {
    hide RequestOf, Serve;
    RequestsStayOk(d, call);
    ResolutionMade(d, call);
    forall k | 0 <= k < |d.resolutions| ensures Spent(Serve(d, call).store, Serve(d, call).issued, d.resolutions[k]) {
      StaysSpent(d, call, d.resolutions[k]);
    }
  }

  /** One-shot: under any calls, as time passes, no request is resolved twice; each resolution found
      its request pending, before its expiry, and under the epoch given if one was given. */
  lemma {:induction false} OneShot(d: Desk, calls: seq<Call>)
    requires DeskOk(d)
    ensures DeskOk(ServeAll(d, calls))
    decreases |calls|
  {
    hide DeskOk, Serve;
    if calls != [] {
      CallKeepsDeskOk(d, calls[0]);
      OneShot(Serve(d, calls[0]), calls[1..]);
    }
  }

  lemma OneMoreLive(d: Requests, q: Request, now: int)
    requires Ordered(d) && q.interruptId !in d.at && q.status.Pending?
    ensures |LiveRequests(Put(Requests(d.order, AgedTable(d.at, now)), q), Some(q.epoch), now)|
         == |LiveRequests(d, Some(q.epoch), now)| + (if q.expiresAt > now then 1 else 0)
  {
    var at := AgedTable(d.at, now)[q.interruptId := q];
    var a, b := LiveIds(d.at, Some(q.epoch), now), LiveIds(at, Some(q.epoch), now);
    KeepSnoc(d.order, q.interruptId, b);
    KeepCongruent(d.order, a, b);
    CollectCongruent(Keep(d.order, b), d.at, at);
    if q.interruptId in b {
      CollectSnoc(Keep(d.order, b), q.interruptId, at);
    } else {
      assert Keep(d.order, b) + [] == Keep(d.order, b);
    }
  }

  /** The limit: a creation that succeeds under a limit leaves at most that many live requests of its
      epoch, one more than before. */
  lemma LimitHolds(d: Desk, run: string, step: string, ttl: int, epoch: int, limit: nat)
    requires DeskOk(d) && StoreKept(d.store)
    requires Created(d.store, run, step, ttl, Some(epoch), Some(limit), d.now, Uuid(d.issued)).1.Success?
    ensures
      var n := Serve(d, Create(run, step, ttl, Some(epoch), Some(limit)));
      |PendingIn(n.store, run, Some(epoch), d.now)|
        == |PendingIn(d.store, run, Some(epoch), d.now)| + (if ttl > 0 then 1 else 0)
        <= limit
  {
    hide LiveRequests, Ordered, AgedTable;
    var id := Uuid(d.issued);
    var before := Listed(d.store, run);
    assert RequestOf(d.store, run, id).None?;
    KeptOrdered(d.store, run);
    OneMoreLive(before, Request(id, run, step, epoch, d.now, d.now + ttl, Pending), d.now);
    AgedNone(d.now);
  }

  lemma AgedNone(now: int)
    ensures Requests(NONE.order, AgedTable(NONE.at, now)) == NONE
  {
  }

  lemma FreshDesk(now: int)
    ensures DeskOk(Desk(EMPTY_STORE, now, 0, []))
  {
  }

  /** From an empty store: no request is ever resolved twice, and each resolution found its request
      pending, before its expiry, and under the epoch given if one was given. */
  lemma ResolvedOnce(now: int, calls: seq<Call>)
    ensures
      var done := ServeAll(Desk(EMPTY_STORE, now, 0, []), calls).resolutions;
      && (forall j, k | 0 <= j < k < |done| ::
            done[j].request.runId != done[k].request.runId
              || done[j].request.interruptId != done[k].request.interruptId)
      && (forall k | 0 <= k < |done| ::
            && done[k].request.status.Pending? && done[k].at < done[k].request.expiresAt
            && (done[k].given.None? || done[k].given.value == done[k].request.epoch))
  {
    hide ServeAll, RequestsOk, Spent;
    FreshDesk(now);
    OneShot(Desk(EMPTY_STORE, now, 0, []), calls);
  }

  /** A request that is resolved or expired is never pending, resolved or reissued again: any calls
      leave it as it is or remove it. */
  lemma {:induction false} SettledForGood(d: Desk, calls: seq<Call>, r: string, i: string)
    requires DeskOk(d) && |i| <= d.issued
    requires RequestOf(d.store, r, i).Some? ==> !RequestOf(d.store, r, i).value.status.Pending?
    ensures RequestOf(ServeAll(d, calls).store, r, i) in {None, RequestOf(d.store, r, i)}
    decreases |calls|
  {
    hide DeskOk, RequestOf, Serve;
    if calls != [] {
      CallKeepsDeskOk(d, calls[0]);
      Issues(d, calls[0]);
      DeskRequests(d);
      CallMoves(d, calls[0], r, i);
      SettledForGood(Serve(d, calls[0]), calls[1..], r, i);
    }
  }

  lemma DeskRequests(d: Desk)
    requires DeskOk(d)
    ensures RequestsOk(d.store, d.issued)
  {
  }
}
