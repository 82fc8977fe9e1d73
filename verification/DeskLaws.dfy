/** What each call on the interrupt manager does, told by looking requests up before and after it. */
module DeskLaws {
  import opened Prelude
  import opened Sequences
  import opened Interrupts
  import opened InterruptManager

  /** The request a run has under an id. */
  function Held(st: Store, r: string, i: string): Option<Request> {
    if r in st.requests && i in st.requests[r].at then Some(st.requests[r].at[i]) else None
  }

  function Counted(st: Store, r: string): int {
    if r in st.epochs then st.epochs[r] else 0
  }

  /** Pending, in time, and of the epoch asked for if one is. */
  predicate Open(q: Request, epoch: Option<int>, now: int) {
    q.status == Pending && now < q.expiresAt && (epoch == None || epoch == Some(q.epoch))
  }

  /** A request that is looked at when it is pending and its time is over becomes an expired one. */
  function SeenAt(q: Request, now: int): Request {
    if q.status == Pending && q.expiresAt <= now then q.(status := Expired) else q
  }

  /** One request changes, and nothing else. */
  ghost predicate Changes(st: Store, n: Store, r: string, i: string, q: Request) {
    n.epochs == st.epochs && forall s, j :: Held(n, s, j) == if s == r && j == i then Some(q) else Held(st, s, j)
  }

  lemma HeldIs(st: Store, r: string, i: string)
    ensures Held(st, r, i) == RequestOf(st, r, i)
  {
  }

  lemma HeldFiled(st: Store, r: string, i: string)
    requires StoreKept(st)
    ensures Held(st, r, i).Some? ==> Held(st, r, i).value.runId == r && Held(st, r, i).value.interruptId == i
  {
    assert r in st.requests ==> RunKept(r, st.requests[r]);
  }

  lemma SavedChanges(st: Store, q: Request)
    ensures Changes(st, Saved(st, q), q.runId, q.interruptId, q)
  {
    hide RequestOf, Saved, Held;
    SavedEpochs(st, q);
    forall s, j ensures
      Held(Saved(st, q), s, j) == if s == q.runId && j == q.interruptId then Some(q) else Held(st, s, j)
    {
      SavedLookup(st, q, s, j);
      HeldIs(st, s, j);
      HeldIs(Saved(st, q), s, j);
    }
  }

  lemma SavedEpochs(st: Store, q: Request)
    ensures Saved(st, q).epochs == st.epochs
  {
  }

  // ---- resolving and looking ----

  /** resolve: the outcome, and that nothing but the request itself ever changes. A request whose time is
      over is marked under whatever epoch it is resolved. */
  lemma ResolveTells(st: Store, r: string, i: string, epoch: Option<int>, now: int)
    requires StoreKept(st)
    ensures
      var (n, result) := Settled(st, r, i, epoch, now);
      match Held(st, r, i)
      case None => result == Failure(UnknownInterrupt) && n == st
      case Some(q) =>
        if q.status != Pending then result == Failure(NotPending) && n == st
        else if q.expiresAt <= now then
          result == Failure(HasExpired(q.expiresAt)) && Changes(st, n, r, i, q.(status := Expired))
        else if epoch != None && epoch != Some(q.epoch) then result == Failure(EpochMismatch) && n == st
        else result == Success(q.(status := Resolved)) && Changes(st, n, r, i, q.(status := Resolved))
  {
    hide RequestOf, Saved, Held, Changes, StoreKept;
    HeldIs(st, r, i);
    HeldFiled(st, r, i);
    if Held(st, r, i).Some? {
      SavedChanges(st, Held(st, r, i).value.(status := Expired));
      SavedChanges(st, Held(st, r, i).value.(status := Resolved));
    }
  }

  /** get_pending: the request if it is pending and in time; one whose time is over is marked. */
  lemma LookTells(st: Store, r: string, i: string, now: int)
    requires StoreKept(st)
    ensures
      var (n, result) := Looked(st, r, i, now);
      match Held(st, r, i)
      case None => result == None && n == st
      case Some(q) =>
        if Open(q, None, now) then result == Some(q) && n == st
        else result == None && (if q.status == Pending then Changes(st, n, r, i, q.(status := Expired)) else n == st)
  {
    hide RequestOf, Saved, Held, Changes, StoreKept;
    HeldIs(st, r, i);
    HeldFiled(st, r, i);
    if Held(st, r, i).Some? {
      SavedChanges(st, Held(st, r, i).value.(status := Expired));
    }
  }

  // ---- listing ----

  /** The open requests of a run. */
  ghost function OpenIds(st: Store, r: string, epoch: Option<int>, now: int): set<string> {
    if r in st.requests then set i | i in st.requests[r].at && Open(st.requests[r].at[i], epoch, now) else {}
  }

  lemma LiveIsOpen(st: Store, r: string, epoch: Option<int>, now: int)
    ensures LiveIds(Listed(st, r).at, epoch, now) == OpenIds(st, r, epoch, now)
  {
    if epoch.Some? {
      assert forall q: Request :: epoch == Some(q.epoch) <==> q.epoch == epoch.value;
    }
  }

  lemma {:induction false} CollectEach(ids: seq<string>, at: Table)
    requires NoDuplicates(ids) && forall i | i in ids :: i in at && at[i].interruptId == i
    ensures |Collect(ids, at)| == |ids|
    ensures forall q :: q in Collect(ids, at) <==> exists i | i in ids :: at[i] == q
  {
    if ids != [] {
      assert ids == [ids[0]] + ids[1..];
      CollectEach(ids[1..], at);
    }
  }

  lemma {:induction false} DistinctCount(ids: seq<string>, names: set<string>)
    requires NoDuplicates(ids) && forall i :: i in ids <==> i in names
    ensures |ids| == |names|
  {
    if ids == [] {
      assert names == {};
    } else {
      var rest := names - {ids[0]};
      forall i ensures i in ids[1..] <==> i in rest {
        assert ids == [ids[0]] + ids[1..];
      }
      DistinctCount(ids[1..], rest);
    }
  }

  lemma PendingAre(st: Store, r: string, epoch: Option<int>, now: int)
    requires StoreKept(st)
    ensures |PendingIn(st, r, epoch, now)| == |OpenIds(st, r, epoch, now)|
    ensures forall q :: q in PendingIn(st, r, epoch, now) <==>
      Held(st, r, q.interruptId) == Some(q) && Open(q, epoch, now)
  {
    hide RunKept, Open, Live;
    var d := Listed(st, r);
    LiveIsOpen(st, r, epoch, now);
    var live := OpenIds(st, r, epoch, now);
    var ids := Keep(d.order, live);
    KeptOrdered(st, r);
    KeepDistinct(d.order, live);
    forall i | i in ids ensures i in d.at && d.at[i].interruptId == i {
      HeldFiled(st, r, i);
    }
    CollectEach(ids, d.at);
    DistinctCount(ids, live);
    forall q ensures q in PendingIn(st, r, epoch, now) <==>
      Held(st, r, q.interruptId) == Some(q) && Open(q, epoch, now)
    {
      if q in PendingIn(st, r, epoch, now) {
        var i :| i in ids && d.at[i] == q;
      }
      if Held(st, r, q.interruptId) == Some(q) && Open(q, epoch, now) {
        assert q.interruptId in ids;
      }
    }
  }

  /** One text begins the other, or has the smaller character where they differ first. */
  ghost predicate InTextOrder(a: string, b: string) {
    exists n: nat :: DifferAt(a, b, n)
  }

  predicate DifferAt(a: string, b: string, n: nat) {
    n <= |a| && n <= |b| && a[..n] == b[..n] && (n == |a| || (n < |b| && a[n] < b[n]))
  }

  lemma {:induction false} TextOrderMeans(a: string, b: string)
    ensures TextUpTo(a, b) <==> InTextOrder(a, b)
    decreases |a|
  {
    if a == "" {
      assert DifferAt(a, b, 0);
    } else if b != "" && a[0] == b[0] {
      TextOrderMeans(a[1..], b[1..]);
      assert a == [a[0]] + a[1..] && b == [b[0]] + b[1..];
      if InTextOrder(a[1..], b[1..]) {
        var n: nat :| DifferAt(a[1..], b[1..], n);
        assert a[..n + 1] == [a[0]] + a[1..][..n] && b[..n + 1] == [b[0]] + b[1..][..n];
        assert DifferAt(a, b, n + 1);
      }
      if InTextOrder(a, b) {
        var n: nat :| DifferAt(a, b, n);
        assert a[1..][..n - 1] == a[..n][1..] && b[1..][..n - 1] == b[..n][1..];
        assert DifferAt(a[1..], b[1..], n - 1);
      }
    } else if b != "" && a[0] < b[0] {
      assert DifferAt(a, b, 0);
    } else {
      forall n: nat ensures !DifferAt(a, b, n) {
        if n > 0 && n <= |a| && n <= |b| {
          assert a[..n][0] != b[..n][0];
        }
      }
    }
  }

  /** The order of a listing: the earlier created first, and by the text of the id at the same time. */
  lemma OrderMeans(a: Request, b: Request)
    ensures UpTo(a, b) <==>
      a.createdAt < b.createdAt || (a.createdAt == b.createdAt && InTextOrder(a.interruptId, b.interruptId))
  {
    TextOrderMeans(a.interruptId, b.interruptId);
  }

  /** What a listing, or a creation under a limit, leaves of the requests it has looked at. */
  ghost predicate SeenIn(st: Store, n: Store, r: string, now: int) {
    n.epochs == st.epochs && forall s, j ::
      Held(n, s, j) == if s == r && Held(st, s, j).Some? then Some(SeenAt(Held(st, s, j).value, now))
        else Held(st, s, j)
  }

  lemma AgedIsSeen(st: Store, r: string, now: int)
    ensures SeenIn(st, AgedRun(st, r, now), r, now)
  {
  }

  /** list_pending: the open requests, each once, in ascending order of creation time and id; those whose
      time is over are marked. */
  lemma ListTells(st: Store, r: string, epoch: Option<int>, now: int)
    requires StoreKept(st)
    ensures
      var out := InOrder(PendingIn(st, r, epoch, now));
      && (forall q :: q in out <==> Held(st, r, q.interruptId) == Some(q) && Open(q, epoch, now))
      && |out| == |OpenIds(st, r, epoch, now)|
      && forall i, j | 0 <= i < j < |out| ::
           out[i].createdAt < out[j].createdAt
           || (out[i].createdAt == out[j].createdAt && InTextOrder(out[i].interruptId, out[j].interruptId))
    ensures SeenIn(st, AgedRun(st, r, now), r, now)
  {
    hide PendingIn, InOrder, UpTo, InTextOrder, AgedRun, Held, Open, StoreKept, OpenIds, SeenIn;
    PendingAre(st, r, epoch, now);
    OrderSorts(PendingIn(st, r, epoch, now));
    AgedIsSeen(st, r, now);
    var rs, out := PendingIn(st, r, epoch, now), InOrder(PendingIn(st, r, epoch, now));
    forall q ensures q in out <==> q in rs {
      assert q in multiset(out) <==> q in multiset(rs);
    }
    forall i, j | 0 <= i < j < |out| ensures UpTo(out[i], out[j]) {
    }
    forall i, j | 0 <= i < j < |out|
      ensures out[i].createdAt < out[j].createdAt
        || (out[i].createdAt == out[j].createdAt && InTextOrder(out[i].interruptId, out[j].interruptId))
    {
      OrderMeans(out[i], out[j]);
    }
  }

  // ---- creating ----

  /** create: it fails exactly when there is a limit, not a negative one, and as many requests of the epoch
      are open already. The new request is pending from now until its time is over, under the epoch given or
      the run's counter. Counting marks those whose time is over; nothing else changes. */
  lemma CreateTells(st: Store, r: string, step: string, ttl: int, epoch: Option<int>, limit: Option<int>, now: int,
                    id: string)
    requires StoreKept(st)
    ensures
      var (n, result) := Created(st, r, step, ttl, epoch, limit, now, id);
      var limited := limit.Some? && 0 <= limit.value;
      if limited && |OpenIds(st, r, epoch, now)| >= limit.value
      then result == Failure(TooManyPending) && SeenIn(st, n, r, now)
      else
        && result == Success(Request(id, r, step, if epoch.Some? then epoch.value else Counted(st, r), now, now + ttl,
            Pending))
        && n.epochs == st.epochs
        && forall s, j :: Held(n, s, j) ==
             if s == r && j == id then Some(result.value)
             else if limited && s == r && Held(st, s, j).Some? then Some(SeenAt(Held(st, s, j).value, now))
             else Held(st, s, j)
  {
    hide PendingIn, AgedRun, Held, StoreKept, Saved, OpenIds, SeenAt;
    PendingAre(st, r, epoch, now);
    AgedIsSeen(st, r, now);
    var q := Request(id, r, step, if epoch.Some? then epoch.value else Counted(st, r), now, now + ttl, Pending);
    SavedChanges(st, q);
    SavedChanges(AgedRun(st, r, now), q);
  }

  // ---- clearing, sweeping, counting ----

  /** clear_expired: of the run's requests those that are pending and in time stay; the others are counted. */
  lemma ClearTells(st: Store, r: string, now: int)
    ensures forall j ::
      j in DeadIds(Listed(st, r).at, now) <==> Held(st, r, j).Some? && !Open(Held(st, r, j).value, None, now)
    ensures
      var n := Cleared(st, r, now);
      && n.epochs == st.epochs
      && forall s, j :: Held(n, s, j) ==
           if s == r && Held(st, s, j).Some? && !Open(Held(st, s, j).value, None, now) then None else Held(st, s, j)
  {
    hide RequestOf, Restrict, WithRun;
    DeadAre(st, r, now);
    forall s, j ensures
      Held(Cleared(st, r, now), s, j) ==
        if s == r && Held(st, s, j).Some? && !Open(Held(st, s, j).value, None, now) then None else Held(st, s, j)
    {
      HeldIs(st, s, j);
      HeldIs(Cleared(st, r, now), s, j);
      LiveIsOpen(st, r, None, now);
      if r in st.requests {
        ShrunkLookup(st, r, LiveIds(st.requests[r].at, None, now), s, j);
      }
    }
  }

  lemma DeadAre(st: Store, r: string, now: int)
    ensures forall j ::
      j in DeadIds(Listed(st, r).at, now) <==> Held(st, r, j).Some? && !Open(Held(st, r, j).value, None, now)
  {
    LiveIsOpen(st, r, None, now);
  }

  /** delete_request: that request goes. */
  lemma DeleteTells(st: Store, r: string, i: string)
    ensures
      var n := Deleted(st, r, i);
      && n.epochs == st.epochs
      && forall s, j :: Held(n, s, j) == if s == r && j == i then None else Held(st, s, j)
  {
    hide Without;
    var n := Deleted(st, r, i);
    if r in st.requests {
      var d := Remove(st.requests[r], i);
      assert forall j :: j in d.at <==> j in st.requests[r].at && j != i;
      forall s, j ensures Held(n, s, j) == if s == r && j == i then None else Held(st, s, j) {
        if s == r && d.at == map[] {
          assert j in st.requests[r].at ==> j == i || j in d.at;
        }
      }
    }
  }

  /** sweep_expired: the requests of every run whose expiry is past and above 0 go, and are counted. */
  lemma SweepTells(st: Store, now: int)
    ensures forall s, j ::
      (s, j) in AllDue(st, st.requests.Keys, now) <==>
        Held(st, s, j).Some? && 0 < Held(st, s, j).value.expiresAt <= now
    ensures
      var n := Swept(st, now);
      && n.epochs == st.epochs
      && forall s, j :: Held(n, s, j) ==
           if Held(st, s, j).Some? && 0 < Held(st, s, j).value.expiresAt <= now then None else Held(st, s, j)
  {
    hide RequestOf;
    forall s, j ensures
      Held(Swept(st, now), s, j) ==
        if Held(st, s, j).Some? && 0 < Held(st, s, j).value.expiresAt <= now then None else Held(st, s, j)
    {
      HeldIs(st, s, j);
      HeldIs(Swept(st, now), s, j);
      SweptLookup(st, now, s, j);
    }
  }

  /** bump_epoch: one run's counter goes up by one. */
  lemma BumpTells(st: Store, r: string)
    ensures
      var n := Bumped(st, r);
      && (forall s :: Counted(n, s) == Counted(st, s) + if s == r then 1 else 0)
      && (forall s, j :: Held(n, s, j) == Held(st, s, j))
  {
  }
}
