/** One-shot interrupt requests: the in-memory store and the manager over it
    (governai/runtime/interrupts.py, lines 11-112 and 258-382). */
module Interrupts {
  import opened Prelude
  import opened Sequences

  datatype RequestStatus = Pending | Resolved | Expired

  /** Times are seconds; message and context are not kept. */
  datatype Request = Request(
    interruptId: string,
    runId: string,
    stepName: string,
    epoch: int,
    createdAt: int,
    expiresAt: int,
    status: RequestStatus)

  datatype InterruptError =
    | UnknownInterrupt
    | NotPending
    | HasExpired(expiresAt: int)
    | EpochMismatch
    | TooManyPending

  type Table = map<string, Request>

  /** One run's requests: a dictionary in insertion order. */
  datatype Requests = Requests(order: seq<string>, at: Table)

  /** The dictionaries of the store. */
  datatype Store = Store(requests: map<string, Requests>, epochs: map<string, int>)

  const NONE := Requests([], map[])
  const EMPTY_STORE := Store(map[], map[])

  // ---- one run's requests ----

  ghost predicate Ordered(d: Requests) {
    NoDuplicates(d.order) && forall i :: i in d.order <==> i in d.at
  }

  function Put(d: Requests, q: Request): Requests {
    Requests(AddOnce(d.order, q.interruptId), d.at[q.interruptId := q])
  }

  function Remove(d: Requests, id: string): Requests {
    Requests(Without(d.order, id), d.at - {id})
  }

  function Restrict(d: Requests, ids: set<string>): Requests {
    Requests(Keep(d.order, ids), map i | i in d.at && i in ids :: d.at[i])
  }

  /** The requests some ids name, in that order; an id without a request is skipped. */
  function Collect(ids: seq<string>, at: Table): seq<Request> {
    if ids == [] then [] else Entry(ids[0], at) + Collect(ids[1..], at)
  }

  function Entry(id: string, at: Table): seq<Request> {
    if id in at then [at[id]] else []
  }

  /** What sweep_expired removes; a request with expiry 0 or below never falls due. */
  predicate Due(q: Request, now: int) {
    q.expiresAt > 0 && q.expiresAt <= now
  }

  function DueIds(at: Table, now: int): set<string> {
    set i | i in at && Due(at[i], now)
  }

  /** A pending request past its expiry is marked when it is looked at. */
  function Aged(q: Request, now: int): Request {
    if q.status.Pending? && q.expiresAt <= now then q.(status := Expired) else q
  }

  function AgedTable(at: Table, now: int): Table {
    map i | i in at :: Aged(at[i], now)
  }

  predicate Live(q: Request, epoch: Option<int>, now: int) {
    q.status.Pending? && q.expiresAt > now && (epoch.None? || q.epoch == epoch.value)
  }

  function LiveIds(at: Table, epoch: Option<int>, now: int): set<string> {
    set i | i in at && Live(at[i], epoch, now)
  }

  /** The live requests in insertion order. */
  function LiveRequests(d: Requests, epoch: Option<int>, now: int): seq<Request> {
    Collect(Keep(d.order, LiveIds(d.at, epoch, now)), d.at)
  }

  lemma {:induction false} CollectSnoc(ids: seq<string>, id: string, at: Table)
    ensures Collect(ids + [id], at) == Collect(ids, at) + Entry(id, at)
  {
    hide Entry;
    if ids == [] {
      assert [id][1..] == [] && [] + [id] == [id];
      assert Collect([id], at) == Entry(id, at) + Collect([], at);
    } else {
      CollectSnoc(ids[1..], id, at);
      assert (ids + [id])[0] == ids[0] && (ids + [id])[1..] == ids[1..] + [id];
      Associative(Entry(ids[0], at), Collect(ids[1..], at), Entry(id, at));
    }
  }

  lemma Associative(a: seq<Request>, b: seq<Request>, c: seq<Request>)
    ensures a + (b + c) == (a + b) + c
  {
  }

  /** A list read through a table skips just the ids the table lacks. */
  lemma {:induction false} CollectKept(ids: seq<string>, at: Table, valid: set<string>)
    requires forall i | i in ids && i in at :: i in valid
    ensures Collect(Keep(ids, valid), at) == Collect(ids, at)
  {
    if ids != [] {
      assert ids == [ids[0]] + ids[1..];
      CollectKept(ids[1..], at, valid);
      var k := Keep(ids[1..], valid);
      assert ([ids[0]] + k)[1..] == k;
    }
  }

  lemma {:induction false} CollectCongruent(ids: seq<string>, a: Table, b: Table)
    requires forall i | i in ids :: (i in a <==> i in b) && (i in a ==> a[i] == b[i])
    ensures Collect(ids, a) == Collect(ids, b)
  {
    if ids != [] {
      assert ids == [ids[0]] + ids[1..];
      CollectCongruent(ids[1..], a, b);
    }
  }

  lemma PutOrdered(d: Requests, q: Request)
    requires Ordered(d)
    ensures Ordered(Put(d, q))
  {
  }

  lemma RestrictOrdered(d: Requests, ids: set<string>)
    requires Ordered(d)
    ensures Ordered(Restrict(d, ids))
  {
    KeepDistinct(d.order, ids);
  }

  lemma RemoveIsRestrict(d: Requests, id: string)
    requires Ordered(d)
    ensures Remove(d, id) == Restrict(d, d.at.Keys - {id})
  {
    WithoutIsKeep(d.order, id, d.at.Keys - {id});
  }

  lemma RestrictTwice(d: Requests, a: set<string>, b: set<string>)
    ensures Restrict(Restrict(d, a), b) == Restrict(d, a * b)
  {
    KeepTwice(d.order, a, b);
  }

  lemma RestrictAll(d: Requests)
    requires Ordered(d)
    ensures Restrict(d, d.at.Keys) == d
  {
    KeepAll(d.order, d.at.Keys);
  }

  /** Walking a dictionary and removing an id that is still there. */
  lemma RemoveNext(d: Requests, gone: set<string>, id: string)
    requires Ordered(d)
    ensures Remove(Restrict(d, d.at.Keys - gone), id) == Restrict(d, d.at.Keys - (gone + {id}))
  {
    var e := Restrict(d, d.at.Keys - gone);
    RestrictOrdered(d, d.at.Keys - gone);
    RemoveIsRestrict(e, id);
    RestrictTwice(d, d.at.Keys - gone, e.at.Keys - {id});
    assert (d.at.Keys - gone) * (e.at.Keys - {id}) == d.at.Keys - (gone + {id});
  }

  // ---- the store's operations on its dictionaries ----

  function Listed(st: Store, runId: string): Requests {
    if runId in st.requests then st.requests[runId] else NONE
  }

  function RequestOf(st: Store, runId: string, id: string): Option<Request> {
    if id in Listed(st, runId).at then Some(Listed(st, runId).at[id]) else None
  }

  function EpochOf(st: Store, runId: string): int {
    if runId in st.epochs then st.epochs[runId] else 0
  }

  function Saved(st: Store, q: Request): Store {
    st.(requests := st.requests[q.runId := Put(Listed(st, q.runId), q)])
  }

  /** An emptied run entry disappears. */
  function WithRun(requests: map<string, Requests>, runId: string, d: Requests): map<string, Requests> {
    if d.at == map[] then requests - {runId} else requests[runId := d]
  }

  function Deleted(st: Store, runId: string, id: string): Store {
    if runId !in st.requests then st else st.(requests := WithRun(st.requests, runId, Remove(st.requests[runId], id)))
  }

  function Undue(d: Requests, now: int): Requests {
    Restrict(d, d.at.Keys - DueIds(d.at, now))
  }

  function Swept(st: Store, now: int): Store {
    st.(requests := map r | r in st.requests && Undue(st.requests[r], now).at != map[] :: Undue(st.requests[r], now))
  }

  /** The requests of some runs that have fallen due, by run and id. */
  function AllDue(st: Store, runs: set<string>, now: int): set<(string, string)> {
    set r, i | r in runs && i in DueIds(Listed(st, r).at, now) :: (r, i)
  }

  ghost predicate RunKept(r: string, d: Requests) {
    Ordered(d) && d.at != map[] && forall i | i in d.at :: d.at[i].runId == r && d.at[i].interruptId == i
  }

  ghost predicate StoreKept(st: Store) {
    forall r | r in st.requests :: RunKept(r, st.requests[r])
  }

  class InMemoryInterruptStore {
    var requests: map<string, Requests>
    var epochs: map<string, int>

    function View(): Store
      reads this
    {
      Store(requests, epochs)
    }

    constructor ()
      ensures View() == EMPTY_STORE
    {
      requests, epochs := map[], map[];
    }

    method SetEpoch(runId: string, epoch: int)
      modifies this
      ensures View() == old(View()).(epochs := old(epochs)[runId := epoch])
    {
      epochs := epochs[runId := epoch];
    }

    method SaveRequest(q: Request)
      modifies this
      ensures View() == Saved(old(View()), q)
    {
      var entry := if q.runId in requests then requests[q.runId] else NONE;
      requests := requests[q.runId := Put(entry, q)];
    }

    method DeleteRequest(runId: string, id: string)
      modifies this
      ensures View() == Deleted(old(View()), runId, id)
    {
      if runId !in requests {
        return;
      }
      requests := requests[runId := Remove(requests[runId], id)];
      if requests[runId].at == map[] {
        requests := requests - {runId};
      }
    }

    /** The inner loop of sweep_expired: one run's requests, walked over a copy of its keys. */
    method SweepRun(runId: string, now: int) returns (removed: nat)
      requires runId in requests && Ordered(requests[runId])
      modifies this
      ensures View() == old(View()).(requests := WithRun(old(requests), runId, Undue(old(requests)[runId], now)))
      ensures removed == |DueIds(old(requests)[runId].at, now)|
    {
      hide Ordered, Restrict, Remove, DueAmong, DueIds, Due;
      ghost var d := requests[runId];
      var keys, at := requests[runId].order, requests[runId].at;
      removed := 0;
      RestrictAll(d);
      OrderMembers(d);
      NoneDue(at, now);
      assert d.at.Keys - {} == d.at.Keys;
      for i := 0 to |keys|
        invariant removed == |DueAmong(keys[..i], at, now)|
        invariant requests == old(requests)[runId := Restrict(d, d.at.Keys - DueAmong(keys[..i], at, now))]
        invariant epochs == old(epochs)
      {
        DueAmongSnoc(keys, i, at, now);
        if Due(at[keys[i]], now) {
          RemoveNext(d, DueAmong(keys[..i], at, now), keys[i]);
          requests := requests[runId := Remove(requests[runId], keys[i])];
          removed := removed + 1;
        }
      }
      DueAmongAll(keys, at, now);
      if requests[runId].at == map[] {
        requests := requests - {runId};
      }
    }

    /** Removes exactly the due requests of every run, keeps the others as they were and in order, and
        returns how many it removed. */
    method SweepExpired(now: int) returns (removed: nat)
      requires StoreKept(View())
      modifies this
      ensures View() == Swept(old(View()), now)
      ensures removed == |AllDue(old(View()), old(requests).Keys, now)|
    {
      hide Undue, RunKept, WithRun, AllDue;
      ghost var st := View();
      var todo := requests.Keys;
      ghost var done: set<string> := {};
      removed := 0;
      NothingSwept(st, now);
      while todo != {}
        invariant todo !! done && todo + done == st.requests.Keys
        invariant requests == PartlySwept(st, done, now) && epochs == st.epochs
        invariant removed == |AllDue(st, done, now)|
      {
        var r :| r in todo;
        ghost var before := requests;
        assert RunKept(r, st.requests[r]);
        RunKeptOrdered(r, st.requests[r]);
        var n := SweepRun(r, now);
        AllDueGrows(st, done, r, now);
        SweptOneMore(st, done, r, now);
        removed := removed + n;
        todo := todo - {r};
        done := done + {r};
      }
      SweptAll(st, now);
    }
  }

  lemma RunKeptOrdered(r: string, d: Requests)
    requires RunKept(r, d)
    ensures Ordered(d)
  {
  }

  lemma OrderMembers(d: Requests)
    requires Ordered(d)
    ensures NoDuplicates(d.order) && (forall i :: i in d.order <==> i in d.at)
  {
  }

  function DueAmong(keys: seq<string>, at: Table, now: int): set<string> {
    set i | i in keys && i in at && Due(at[i], now)
  }

  lemma NoneDue(at: Table, now: int)
    ensures DueAmong([], at, now) == {}
  {
  }

  lemma DueAmongAll(keys: seq<string>, at: Table, now: int)
    requires forall i :: i in keys <==> i in at
    ensures keys[..|keys|] == keys && DueAmong(keys, at, now) == DueIds(at, now)
  {
  }

  lemma DueAmongSnoc(keys: seq<string>, i: nat, at: Table, now: int)
    requires i < |keys| && NoDuplicates(keys) && keys[i] in at
    ensures keys[i] !in DueAmong(keys[..i], at, now)
    ensures DueAmong(keys[..i + 1], at, now) ==
      DueAmong(keys[..i], at, now) + (if Due(at[keys[i]], now) then {keys[i]} else {})
  {
    assert keys[..i + 1] == keys[..i] + [keys[i]];
  }

  /** The table while a sweep is at work: some runs are done. */
  function PartlySwept(st: Store, done: set<string>, now: int): map<string, Requests> {
    map r | r in st.requests && (r in done ==> Undue(st.requests[r], now).at != map[]) ::
      if r in done then Undue(st.requests[r], now) else st.requests[r]
  }

  lemma NothingSwept(st: Store, now: int)
    ensures PartlySwept(st, {}, now) == st.requests
    ensures AllDue(st, {}, now) == {}
  {
  }

  lemma SweptOneMore(st: Store, done: set<string>, r: string, now: int)
    requires r in st.requests && r !in done
    ensures WithRun(PartlySwept(st, done, now), r, Undue(st.requests[r], now)) == PartlySwept(st, done + {r}, now)
  {
    hide Undue;
  }

  lemma SweptAll(st: Store, now: int)
    ensures PartlySwept(st, st.requests.Keys, now) == Swept(st, now).requests
  {
    hide Undue;
  }

  lemma AllDueGrows(st: Store, done: set<string>, r: string, now: int)
    requires r in st.requests && r !in done
    ensures |AllDue(st, done + {r}, now)| == |AllDue(st, done, now)| + |DueIds(st.requests[r].at, now)|
  {
    hide DueIds;
    var ids := DueIds(st.requests[r].at, now);
    var pairs := set i | i in ids :: (r, i);
    assert AllDue(st, done + {r}, now) == AllDue(st, done, now) + pairs;
    assert AllDue(st, done, now) !! pairs;
    PairCount(r, ids);
  }

  lemma {:induction false} PairCount(r: string, ids: set<string>)
    ensures |set i | i in ids :: (r, i)| == |ids|
  {
    if ids != {} {
      var x :| x in ids;
      PairCount(r, ids - {x});
      assert (set i | i in ids :: (r, i)) == (set i | i in ids - {x} :: (r, i)) + {(r, x)};
    }
  }

  // ---- the store stays well kept ----

  /** A dictionary without values has no order either. */
  lemma EmptyIsNone(d: Requests)
    requires Ordered(d) && d.at == map[]
    ensures d == NONE
  {
    if d.order != [] {
      SomeMember(d.order);
    }
  }

  lemma SomeMember(ids: seq<string>)
    requires ids != []
    ensures exists i :: i in ids
  {
    assert ids[0] in ids;
  }

  lemma KeptOrdered(st: Store, r: string)
    requires StoreKept(st)
    ensures Ordered(Listed(st, r))
  {
    assert r in st.requests ==> RunKept(r, st.requests[r]);
  }

  lemma WithRunKept(st: Store, r: string, d: Requests)
    requires StoreKept(st) && Ordered(d)
    requires forall i | i in d.at :: d.at[i].runId == r && d.at[i].interruptId == i
    ensures StoreKept(st.(requests := WithRun(st.requests, r, d)))
    ensures forall x :: Listed(st.(requests := WithRun(st.requests, r, d)), x) == if x == r then d else Listed(st, x)
  {
    if d.at == map[] {
      EmptyIsNone(d);
    }
    var n := st.(requests := WithRun(st.requests, r, d));
    forall x | x in n.requests ensures RunKept(x, n.requests[x]) {
      assert x in st.requests ==> RunKept(x, st.requests[x]);
    }
  }

  lemma SavedIsWithRun(st: Store, q: Request)
    requires StoreKept(st)
    ensures Saved(st, q) == st.(requests := WithRun(st.requests, q.runId, Put(Listed(st, q.runId), q)))
    ensures Ordered(Put(Listed(st, q.runId), q))
    ensures forall i | i in Put(Listed(st, q.runId), q).at ::
      Put(Listed(st, q.runId), q).at[i].runId == q.runId && Put(Listed(st, q.runId), q).at[i].interruptId == i
  {
    KeptOrdered(st, q.runId);
    PutOrdered(Listed(st, q.runId), q);
    assert q.runId in st.requests ==> RunKept(q.runId, st.requests[q.runId]);
    assert q.interruptId in Put(Listed(st, q.runId), q).at;
  }

  lemma DeletedIsWithRun(st: Store, r: string, i: string)
    requires StoreKept(st)
    ensures Deleted(st, r, i) == st.(requests := WithRun(st.requests, r, Remove(Listed(st, r), i)))
    ensures Ordered(Remove(Listed(st, r), i))
    ensures forall j | j in Remove(Listed(st, r), i).at ::
      Remove(Listed(st, r), i).at[j].runId == r && Remove(Listed(st, r), i).at[j].interruptId == j
  {
    KeptOrdered(st, r);
    RemoveIsRestrict(Listed(st, r), i);
    RestrictOrdered(Listed(st, r), Listed(st, r).at.Keys - {i});
    assert r in st.requests ==> RunKept(r, st.requests[r]);
  }

  lemma SweptKept(st: Store, now: int)
    requires StoreKept(st)
    ensures StoreKept(Swept(st, now)) && Swept(st, now).epochs == st.epochs
    ensures forall x :: Listed(Swept(st, now), x) == Undue(Listed(st, x), now)
  {
    hide Undue, RunKept;
    var n := Swept(st, now);
    forall x ensures Listed(n, x) == Undue(Listed(st, x), now) {
      if x in st.requests {
        UndueKept(x, st.requests[x], now);
      } else {
        UndueNone(now);
      }
    }
    forall x | x in n.requests ensures RunKept(x, n.requests[x]) {
      UndueKept(x, st.requests[x], now);
    }
  }

  lemma UndueKept(r: string, d: Requests, now: int)
    requires RunKept(r, d)
    ensures Undue(d, now).at != map[] ==> RunKept(r, Undue(d, now))
    ensures Undue(d, now).at == map[] ==> Undue(d, now) == NONE
  {
    RestrictOrdered(d, d.at.Keys - DueIds(d.at, now));
    if Undue(d, now).at == map[] {
      EmptyIsNone(Undue(d, now));
    }
  }

  lemma UndueNone(now: int)
    ensures Undue(NONE, now) == NONE
  {
  }
}
