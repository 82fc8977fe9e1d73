/** The runtime object over a real run store and interrupt manager: every method updates the caches,
    indexes and trails in place and is proved against the operation on the run it touches, with every
    other run left as it was (governai/runtime/local.py, lines 213-698, 1266-1275, 1325-1333 and
    1385-1405). */
module LocalRuntimes {
  import opened Prelude
  import opened Values
  import opened RunStates
  import opened RunStore
  import opened Sequences
  import opened Workflows
  import opened Interrupts
  import opened InterruptManager
  import opened Lifecycle
  import opened LifecycleInvariants
  import opened LifecycleResults
  import opened Reloading

  // ---- one run's part of the interrupt store ----

  function OnlyRun(st: Store, r: string): Store {
    Store(if r in st.requests then map[r := st.requests[r]] else map[], if r in st.epochs then map[r := st.epochs[r]]
        else map[])
  }

  lemma OnlySaved(st: Store, q: Request, r: string)
    ensures OnlyRun(Saved(st, q), r) == if q.runId == r then Saved(OnlyRun(st, r), q) else OnlyRun(st, r)
  {
  }

  lemma OnlyBumped(st: Store, run: string, r: string)
    ensures OnlyRun(Bumped(st, run), r) == if run == r then Bumped(OnlyRun(st, r), r) else OnlyRun(st, r)
  {
  }

  lemma OnlyAged(st: Store, run: string, now: int, r: string)
    ensures OnlyRun(AgedRun(st, run, now), r) == if run == r then AgedRun(OnlyRun(st, r), r, now) else OnlyRun(st, r)
  {
  }

  lemma OnlyLists(st: Store, r: string, id: string)
    ensures Listed(OnlyRun(st, r), r) == Listed(st, r) && EpochOf(OnlyRun(st, r), r) == EpochOf(st, r)
    ensures RequestOf(OnlyRun(st, r), r, id) == RequestOf(st, r, id)
  {
  }

  /** Creating a request works on the run's part alone. */
  lemma OnlyCreated(st: Store, r: string, step: string, ttl: int, epoch: int, limit: nat, now: int, id: string)
    ensures
      var whole := Created(st, r, step, ttl, Some(epoch), Some(limit), now, id);
      && Created(OnlyRun(st, r), r, step, ttl, Some(epoch), Some(limit), now, id) == (OnlyRun(whole.0, r), whole.1)
      && (forall x | x != r :: OnlyRun(whole.0, x) == OnlyRun(st, x))
  {
    hide OnlyRun, Saved, AgedRun, LiveRequests, Listed;
    OnlyLists(st, r, id);
    var q := Request(id, r, step, epoch, now, now + ttl, Pending);
    forall x ensures
      && OnlyRun(AgedRun(st, r, now), x) == (if x == r then AgedRun(OnlyRun(st, r), r, now) else OnlyRun(st, x))
      && OnlyRun(Saved(AgedRun(st, r, now), q), x) ==
           (if x == r then Saved(AgedRun(OnlyRun(st, r), r, now), q) else OnlyRun(st, x))
    {
      OnlyAged(st, r, now, x);
      OnlySaved(AgedRun(st, r, now), q, x);
    }
  }

  lemma OnlySettled(st: Store, r: string, id: string, epoch: Option<int>, now: int)
    requires StoreKept(st)
    ensures
      var whole := Settled(st, r, id, epoch, now);
      && Settled(OnlyRun(st, r), r, id, epoch, now) == (OnlyRun(whole.0, r), whole.1)
      && (forall x | x != r :: OnlyRun(whole.0, x) == OnlyRun(st, x))
  {
    hide OnlyRun, Saved, RequestOf, Listed, StoreKept;
    OnlyLists(st, r, id);
    var found := RequestOf(st, r, id);
    if found.Some? {
      RequestKept(st, r, id);
      forall x, status ensures
        OnlyRun(Saved(st, found.value.(status := status)), x) ==
          (if x == r then Saved(OnlyRun(st, r), found.value.(status := status)) else OnlyRun(st, x))
      {
        OnlySaved(st, found.value.(status := status), x);
      }
    }
  }

  lemma RequestKept(st: Store, r: string, id: string)
    requires StoreKept(st) && RequestOf(st, r, id).Some?
    ensures RequestOf(st, r, id).value.runId == r && RequestOf(st, r, id).value.interruptId == id
  {
    assert RunKept(r, st.requests[r]);
  }

  // ---- the manager keeps its store well kept ----

  lemma SavedKept(st: Store, q: Request)
    requires StoreKept(st)
    ensures StoreKept(Saved(st, q))
  {
    SavedIsWithRun(st, q);
    WithRunKept(st, q.runId, Put(Listed(st, q.runId), q));
  }

  lemma AgedKept(st: Store, r: string, now: int)
    requires StoreKept(st)
    ensures StoreKept(AgedRun(st, r, now))
  {
    var n := AgedRun(st, r, now);
    forall x | x in n.requests ensures RunKept(x, n.requests[x]) {
      assert RunKept(x, st.requests[x]);
      if x == r {
        AgedRunKept(x, st.requests[x], now);
      }
    }
  }

  lemma AgedRunKept(r: string, d: Requests, now: int)
    requires RunKept(r, d)
    ensures RunKept(r, Requests(d.order, AgedTable(d.at, now)))
  {
    assert AgedTable(d.at, now).Keys == d.at.Keys;
  }

  lemma CreatedKept(st: Store, r: string, step: string, ttl: int, epoch: Option<int>, limit: Option<int>, now: int,
                    id: string)
    requires StoreKept(st)
    ensures StoreKept(Created(st, r, step, ttl, epoch, limit, now, id).0)
  {
    hide StoreKept, Saved, AgedRun, LiveRequests;
    AgedKept(st, r, now);
    var q := Request(id, r, step, epoch.GetOr(EpochOf(st, r)), now, now + ttl, Pending);
    SavedKept(st, q);
    SavedKept(AgedRun(st, r, now), q);
  }

  lemma SettledKept(st: Store, r: string, id: string, epoch: Option<int>, now: int)
    requires StoreKept(st)
    ensures StoreKept(Settled(st, r, id, epoch, now).0)
  {
    hide StoreKept, Saved, RequestOf;
    var found := RequestOf(st, r, id);
    if found.Some? {
      SavedKept(st, found.value.(status := Expired));
      SavedKept(st, found.value.(status := Resolved));
    }
  }

  lemma BumpedKept(st: Store, r: string)
    requires StoreKept(st)
    ensures StoreKept(Bumped(st, r))
  {
  }

  function TrailAt(m: map<string, seq<Event>>, r: string): seq<Event> {
    if r in m then m[r] else []
  }

  function LineageAt(m: map<string, seq<RunState>>, r: string): seq<RunState> {
    if r in m then m[r] else []
  }

  /** The active run of a thread is the one registered last, unless that run has ended. */
  ghost predicate ActiveOk(m: Mem, registered: map<string, string>) {
    && (forall t | t in registered :: registered[t] in m.state && m.state[registered[t]].threadId == t)
    && (forall t :: t in m.threadActive <==> t in registered && !Terminal(m.state[registered[t]].status))
    && (forall t | t in m.threadActive :: m.threadActive[t] == registered[t])
  }

  /** Every run id and checkpoint id is one of the uuids issued. */
  ghost predicate IdsOk(m: Mem, runs: map<string, RunState>, desk: Store, audit: map<string, seq<Event>>,
                        lineages: map<string, seq<RunState>>, issued: nat)
  {
    && (forall r | r in m.state :: |r| <= issued) && (forall r | r in runs :: |r| <= issued)
    && (forall r | r in desk.requests :: |r| <= issued) && (forall r | r in desk.epochs :: |r| <= issued)
    && (forall r | r in audit :: |r| <= issued) && (forall r | r in lineages :: |r| <= issued)
    && (forall c | c in m.checkpoints :: |c| <= issued)
  }

  predicate Known(table: map<string, RunState>, id: Option<string>) {
    id.Some? ==> id.value in table
  }

  /** A checkpoint is filed under its own id, and its parent, if it has one, is held under a shorter id. */
  predicate Rooted(table: map<string, RunState>, c: string)
    requires c in table
  {
    && table[c].checkpointId == Some(c) && Known(table, table[c].parentCheckpointId)
    && (table[c].parentCheckpointId.Some? ==> |table[c].parentCheckpointId.value| < |c|)
  }

  /** The checkpoints of all runs are a forest, and every state at hand names one of them or none. */
  ghost predicate ForestOk(m: Mem, runs: map<string, RunState>) {
    && (forall c | c in m.checkpoints :: Rooted(m.checkpoints, c))
    && (forall r | r in m.state :: Known(m.checkpoints, m.state[r].checkpointId))
    && (forall r | r in runs :: Known(m.checkpoints, runs[r].checkpointId))
  }

  ghost predicate CheckpointsHeld(m: Mem, lineages: map<string, seq<RunState>>) {
    forall r | r in lineages :: Holds(m.checkpoints, lineages[r])
  }

  /** Every checkpoint held was written by a run. */
  ghost predicate Accounted(m: Mem, lineages: map<string, seq<RunState>>) {
    forall c | c in m.checkpoints :: exists r | r in lineages :: m.checkpoints[c] in lineages[r]
  }

  // ---- the runtime as a value ----

  /** Caches, store, interrupt store, audit trails by run, uuids drawn; and, as history, the checkpoints
      of each run and the run each thread registered last. */
  datatype World = World(
    runs: map<string, RunState>,
    mem: Mem,
    desk: Store,
    audit: map<string, seq<Event>>,
    issued: nat,
    lineages: map<string, seq<RunState>>,
    registered: map<string, string>)

  /** Everything the runtime holds about one run. */
  datatype Slice = Slice(
    cached: Option<RunState>,
    stored: Option<RunState>,
    lineage: seq<RunState>,
    desk: Store,
    trail: seq<Event>)

  function SliceOf(w: World, r: string): Slice {
    Slice(if r in w.runs then Some(w.runs[r]) else None, Existing(w.mem, r), LineageAt(w.lineages, r),
          OnlyRun(w.desk, r), TrailAt(w.audit, r))
  }

  predicate Resumable(k: Kernel) {
    k.state.status == WAITING_APPROVAL || k.state.status == WAITING_INTERRUPT
  }

  /** Only run r's part differs. */
  ghost predicate Apart(v: World, w: World, r: string) {
    forall q | q != r :: SliceOf(w, q) == SliceOf(v, q)
  }

  /** The run's part of the runtime is the kernel, whatever its phase. */
  predicate Mirrors(w: World, k: Kernel) {
    && SliceOf(w, k.state.runId) == Slice(Some(k.state), k.stored, k.lineage, k.desk, k.trail)
    && k.sum == Replay(k.trail) && k.issued == w.issued
  }

  /** Every checkpoint of every run is placed, so each can be restored. */
  ghost predicate Restorable(setup: Setup, w: World) {
    forall r | r in w.lineages :: CheckpointsPlaced(setup, w.lineages[r])
  }

  /** The runtime has the run in its cache, or its store has it as the cache would. */
  predicate Keeps(w: World, k: Kernel) {
    Mirrors(w, k) || (k.state.runId !in w.runs && k.stored == Some(k.state) && Mirrors(Loading(w, k.state), k))
  }

  function Loading(w: World, s: RunState): World {
    w.(runs := w.runs[s.runId := s])
  }

  ghost predicate Sane(w: World) {
    && StoreKept(w.desk) && IdsOk(w.mem, w.runs, w.desk, w.audit, w.lineages, w.issued)
    && ActiveOk(w.mem, w.registered) && CheckpointsHeld(w.mem, w.lineages) && ForestOk(w.mem, w.runs)
    && Accounted(w.mem, w.lineages)
  }

  // ---- what a put does to the dictionaries ----

  /** The version a put writes, once it is accepted. */
  lemma PutEffect(m: Mem, s: RunState, id: string)
    requires s.checkpointId.None?
    ensures MemPut(m, s, id).Success? <==> Consistent(s) && NextVersion(Existing(m, s.runId), s, id).Success?
    ensures MemPut(m, s, id).Success? ==>
      var (n, w) := MemPut(m, s, id).value;
      && NextVersion(Existing(m, s.runId), s, id) == Success(w)
      && n.state == m.state[s.runId := w] && n.checkpoints == m.checkpoints[id := w] && n.threadActive == m.threadActive
      && w.checkpointId == Some(id) && w.parentCheckpointId == s.parentCheckpointId
      && w.threadId == s.threadId && w.status == s.status && w.runId == s.runId
  {
  }

  /** What a registration and a clearing do to them. */
  lemma IndexEffect(m: Mem, t: string, r: string)
    ensures MemSetActive(m, t, r).state == m.state && MemSetActive(m, t, r).checkpoints == m.checkpoints
    ensures MemSetActive(m, t, r).threadActive == m.threadActive[t := r]
    ensures MemClearActive(m, t, r).state == m.state && MemClearActive(m, t, r).checkpoints == m.checkpoints
    ensures MemClearActive(m, t, r).threadActive ==
      if t in m.threadActive && m.threadActive[t] == r then m.threadActive - {t} else m.threadActive
  {
  }

  lemma HoldsMore(table: map<string, RunState>, lineage: seq<RunState>, id: string, w: RunState)
    requires Holds(table, lineage) && id !in table
    ensures Holds(table[id := w], lineage)
  {
  }

  lemma HoldsNext(table: map<string, RunState>, lineage: seq<RunState>, id: string, w: RunState)
    requires Holds(table, lineage) && id !in table && w.checkpointId == Some(id)
    ensures Holds(table[id := w], lineage + [w])
  {
  }

  lemma StillHeld(m: Mem, n: Mem, lineages: map<string, seq<RunState>>, r: string, id: string, w: RunState)
    requires CheckpointsHeld(m, lineages) && id !in m.checkpoints && n.checkpoints == m.checkpoints[id := w]
      && w.checkpointId == Some(id)
    ensures CheckpointsHeld(n, lineages[r := LineageAt(lineages, r) + [w]])
  {
    hide Holds;
    HoldsNothing(m.checkpoints);
    HoldsNext(m.checkpoints, LineageAt(lineages, r), id, w);
    forall q | q in lineages && q != r ensures Holds(n.checkpoints, lineages[q]) {
      HoldsMore(m.checkpoints, lineages[q], id, w);
    }
  }

  lemma HoldsNothing(table: map<string, RunState>)
    ensures Holds(table, [])
  {
  }

  lemma SameTable(m: Mem, n: Mem, lineages: map<string, seq<RunState>>)
    requires CheckpointsHeld(m, lineages) && n.checkpoints == m.checkpoints
    ensures CheckpointsHeld(n, lineages)
  {
    hide Holds;
  }

  lemma StillRooted(m: Mem, n: Mem, runs: map<string, RunState>, r: string, id: string, w: RunState)
    requires ForestOk(m, runs) && id !in m.checkpoints && n.checkpoints == m.checkpoints[id := w]
      && n.state == m.state[r := w]
    requires w.checkpointId == Some(id) && Known(m.checkpoints, w.parentCheckpointId)
    requires w.parentCheckpointId.Some? ==> |w.parentCheckpointId.value| < |id|
    ensures ForestOk(n, runs[r := w])
  {
    hide Known, Rooted;
    forall s: Option<string> | Known(m.checkpoints, s) ensures Known(n.checkpoints, s) {
      KnownMore(m.checkpoints, id, w, s);
    }
    forall c | c in n.checkpoints ensures Rooted(n.checkpoints, c) {
      RootedMore(m.checkpoints, id, w, c);
    }
    KnownNow(n.checkpoints, id, w);
  }

  lemma KnownMore(table: map<string, RunState>, id: string, w: RunState, s: Option<string>)
    requires Known(table, s)
    ensures Known(table[id := w], s)
  {
  }

  lemma KnownNow(table: map<string, RunState>, id: string, w: RunState)
    requires id in table && w.checkpointId == Some(id)
    ensures Known(table, w.checkpointId)
  {
  }

  lemma RootedMore(table: map<string, RunState>, id: string, w: RunState, c: string)
    requires id !in table && w.checkpointId == Some(id) && Known(table, w.parentCheckpointId)
    requires w.parentCheckpointId.Some? ==> |w.parentCheckpointId.value| < |id|
    requires c == id || (c in table && Rooted(table, c))
    ensures Rooted(table[id := w], c)
  {
  }

  lemma SameAccounts(m: Mem, n: Mem, lineages: map<string, seq<RunState>>)
    requires Accounted(m, lineages) && n.checkpoints == m.checkpoints
    ensures Accounted(n, lineages)
  {
  }

  lemma StillActive(m: Mem, n: Mem, registered: map<string, string>, r: string, w: RunState)
    requires ActiveOk(m, registered) && n.state == m.state[r := w]
    requires r in m.state ==> !Terminal(m.state[r].status) && m.state[r].threadId == w.threadId
    requires n.threadActive ==
      if Terminal(w.status) && w.threadId in m.threadActive
        && m.threadActive[w.threadId] == r then m.threadActive - {w.threadId} else m.threadActive
    ensures ActiveOk(n, registered)
  {
  }

  // ---- one event, one put ----

  lemma EventKept(w: World, k: Kernel, e: Event)
    requires Sane(w) && Mirrors(w, k)
    ensures
      var r := k.state.runId;
      var n := w.(audit := w.audit[r := TrailAt(w.audit, r) + [e]]);
      Sane(n) && Mirrors(n, Emit(k, e)) && Apart(w, n, r)
  {
    hide ActiveOk, CheckpointsHeld, StoreKept, ForestOk, Read, Replay, OnlyRun;
    ReplaySnoc(k.trail, e);
    EmitState(k, e);
  }

  /** The runtime after an accepted put and its event, before the active run is cleared. */
  function Written(v: World, s: RunState, w: RunState, mem: Mem): World {
    var r := s.runId;
    v.(runs := v.runs[r := w], mem := mem, issued := v.issued + 1,
       lineages := v.lineages[r := LineageAt(v.lineages, r) + [w]],
       audit := v.audit[r := TrailAt(v.audit, r) + [CheckpointWritten(w.checkpointId.GetOr(""), w.parentCheckpointId)]])
  }

  function Relinked(s: RunState): RunState {
    s.(parentCheckpointId := s.checkpointId, checkpointId := None)
  }

  /** An accepted put is a save of the run's kernel. */
  lemma PutIsSave(v: World, k: Kernel, s: RunState, mem: Mem, w: RunState)
    requires Mirrors(v, k) && s.runId == k.state.runId && Consistent(s)
    requires NextVersion(k.stored, Relinked(s), Uuid(v.issued)) == Success(w) && Existing(mem, s.runId) == Some(w)
    ensures Save(k, s).Success? && Save(k, s).value.state == w
    ensures Mirrors(Written(v, s, w, mem), Save(k, s).value)
  {
    hide Read, Replay, OnlyRun;
    ReplaySnoc(k.trail, CheckpointWritten(w.checkpointId.value, w.parentCheckpointId));
    EmitState(k.(state := w, stored := Some(w), lineage := k.lineage + [w], issued := k.issued + 1),
              CheckpointWritten(w.checkpointId.value, w.parentCheckpointId));
  }

  /** A refused put leaves the changed state in the cache and nothing else. */
  lemma RefusedIsSave(v: World, k: Kernel, s: RunState)
    requires Sane(v) && Mirrors(v, k) && s.runId == k.state.runId
    requires !Consistent(s) || NextVersion(k.stored, Relinked(s), Uuid(v.issued)).Failure?
    ensures Save(k, s).Failure? && Save(k, s).error.state == Relinked(s)
    ensures
      var n := v.(runs := v.runs[s.runId := Relinked(s)]);
      Sane(n) && Mirrors(n, Save(k, s).error) && Apart(v, n, s.runId)
  {
    hide ActiveOk, CheckpointsHeld, StoreKept, Replay, OnlyRun;
  }

  lemma StillAccounted(m: Mem, n: Mem, lineages: map<string, seq<RunState>>, r: string, id: string, w: RunState)
    requires Accounted(m, lineages) && n.checkpoints == m.checkpoints[id := w]
    ensures Accounted(n, lineages[r := LineageAt(lineages, r) + [w]])
  {
    var more := lineages[r := LineageAt(lineages, r) + [w]];
    forall c | c in n.checkpoints ensures exists q | q in more :: n.checkpoints[c] in more[q] {
      if c == id {
        assert w in more[r];
      } else {
        var q :| q in lineages && m.checkpoints[c] in lineages[q];
        assert m.checkpoints[c] in more[q];
      }
    }
  }

  lemma FreshId(v: World)
    requires Sane(v)
    ensures Uuid(v.issued) !in v.mem.checkpoints && |Uuid(v.issued)| == v.issued + 1
    ensures forall c | c in v.mem.checkpoints :: |c| <= v.issued
  {
    hide StoreKept, ActiveOk, CheckpointsHeld, ForestOk;
  }

  lemma WrittenApart(v: World, s: RunState, w: RunState, mem: Mem)
    requires mem.state == v.mem.state[s.runId := w]
    ensures Apart(v, Written(v, s, w, mem), s.runId)
  {
    hide OnlyRun;
  }

  lemma WrittenIds(v: World, s: RunState, w: RunState, mem: Mem)
    requires Sane(v) && s.runId in v.runs
    requires mem.state == v.mem.state[s.runId := w] && mem.checkpoints == v.mem.checkpoints[Uuid(v.issued) := w]
    ensures
      var n := Written(v, s, w, mem);
      IdsOk(n.mem, n.runs, n.desk, n.audit, n.lineages, n.issued)
  {
    hide StoreKept, ActiveOk, CheckpointsHeld, ForestOk, Accounted, TrailAt, LineageAt;
  }

  lemma SameForest(m: Mem, n: Mem, runs: map<string, RunState>)
    requires ForestOk(m, runs) && n.checkpoints == m.checkpoints && n.state == m.state
    ensures ForestOk(n, runs)
  {
  }

  lemma WrittenSane(v: World, s: RunState, w: RunState, mem: Mem, cleared: Mem)
    requires Sane(v) && s.runId in v.runs
    requires mem.state == v.mem.state[s.runId := w] && mem.checkpoints == v.mem.checkpoints[Uuid(v.issued) := w]
    requires w.checkpointId == Some(Uuid(v.issued))
    requires w.parentCheckpointId == s.checkpointId && Known(v.mem.checkpoints, s.checkpointId)
    requires s.runId in v.mem.state ==>
      !Terminal(v.mem.state[s.runId].status) && v.mem.state[s.runId].threadId == w.threadId
    requires cleared.state == mem.state && cleared.checkpoints == mem.checkpoints
    requires cleared.threadActive ==
      if Terminal(w.status) && w.threadId in v.mem.threadActive && v.mem.threadActive[w.threadId] == s.runId
      then v.mem.threadActive - {w.threadId} else v.mem.threadActive
    ensures Sane(Written(v, s, w, cleared)) && Apart(v, Written(v, s, w, cleared), s.runId)
  {
    hide ActiveOk, CheckpointsHeld, StoreKept, OnlyRun, Holds, ForestOk, Accounted, IdsOk, SliceOf, Uuid, TrailAt;
    var r := s.runId;
    FreshId(v);
    WrittenApart(v, s, w, cleared);
    WrittenIds(v, s, w, cleared);
    StillRooted(v.mem, mem, v.runs, r, Uuid(v.issued), w);
    SameForest(mem, cleared, v.runs[r := w]);
    StillAccounted(v.mem, cleared, v.lineages, r, Uuid(v.issued), w);
    StillHeld(v.mem, mem, v.lineages, r, Uuid(v.issued), w);
    StillActive(v.mem, cleared, v.registered, r, w);
    SameTable(mem, cleared, v.lineages[r := LineageAt(v.lineages, r) + [w]]);
  }

  lemma ConsistentLinked(s: RunState)
    ensures Consistent(Relinked(s)) == Consistent(s)
  {
  }

  function Deactivated(mem: Mem, w: RunState): Mem {
    if Terminal(w.status) then MemClearActive(mem, w.threadId, w.runId) else mem
  }

  /** _persist_state on the runtime as a value: the caller's state comes back as it was left. */
  function PutWorld(v: World, s: RunState): (World, Result<RunState, RunState>) {
    match MemPut(v.mem, Relinked(s), Uuid(v.issued))
    case Success(p) => (Written(v, s, p.1, Deactivated(p.0, p.1)), Success(p.1))
    case Failure(_) => (v.(runs := v.runs[s.runId := Relinked(s)]), Failure(Relinked(s)))
  }

  lemma CachedKnown(w: World, k: Kernel)
    requires Sane(w) && Mirrors(w, k)
    ensures Known(w.mem.checkpoints, k.state.checkpointId)
  {
    hide StoreKept, ActiveOk, CheckpointsHeld, Accounted, IdsOk, OnlyRun, Replay;
  }

  /** Persisting is a save of the run's kernel, and touches no other run. */
  lemma Persisted(v: World, k: Kernel, s: RunState)
    requires Sane(v) && Mirrors(v, k) && s.runId == k.state.runId
    requires k.stored.Some? ==> !Terminal(k.stored.value.status) && k.stored.value.threadId == s.threadId
    requires s.checkpointId == k.state.checkpointId
    ensures
      var (n, res) := PutWorld(v, s);
      && Sane(n) && Apart(v, n, s.runId) && n.registered == v.registered && n.desk == v.desk && v.issued <= n.issued
      && match Save(k, s)
         case Success(k1) => res == Success(k1.state) && Mirrors(n, k1)
         case Failure(k1) => res == Failure(k1.state) && Mirrors(n, k1)
  {
    hide Sane, Apart, MemPut, NextVersion, OnlyRun, Consistent, Save, Replay, Uuid, MemClearActive, MemSetActive;
    ConsistentLinked(s);
    CachedKnown(v, k);
    PutEffect(v.mem, Relinked(s), Uuid(v.issued));
    if MemPut(v.mem, Relinked(s), Uuid(v.issued)).Success? {
      var p := MemPut(v.mem, Relinked(s), Uuid(v.issued)).value;
      IndexEffect(p.0, p.1.threadId, p.1.runId);
      PutIsSave(v, k, s, Deactivated(p.0, p.1), p.1);
      WrittenSane(v, s, p.1, p.0, Deactivated(p.0, p.1));
    } else {
      RefusedIsSave(v, k, s);
    }
  }

  // ---- a step of the runtime against a step of the kernel ----

  /** A run that may still be saved. */
  predicate Open(k: Kernel) {
    k.stored.Some? && !Terminal(k.stored.value.status) && k.stored.value.threadId == k.state.threadId
  }

  /** What an operation hands back: the state with how the loop stands, or the state an exception left. */
  type Return = Result<(RunState, Phase), RunState>

  predicate Follows(w: World, f: Result<Kernel, Kernel>, res: Return) {
    match f
    case Success(n) => res == Success((n.state, n.phase)) && Mirrors(w, n)
    case Failure(n) => res == Failure(n.state) && Mirrors(w, n)
  }

  lemma SaveKeeps(k: Kernel, s: RunState)
    ensures match Save(k, s)
      case Success(n) =>
        && n.state.runId == s.runId && n.state.threadId == s.threadId && n.state.status == s.status
        && n.stored == Some(n.state) && n.phase == k.phase && n.desk == k.desk
      case Failure(n) => n.state.runId == s.runId
  {
    hide Read;
  }

  lemma ApartTrans(u: World, v: World, w: World, r: string)
    requires Apart(u, v, r) && Apart(v, w, r)
    ensures Apart(u, w, r)
  {
    hide SliceOf;
  }

  /** The interrupt store may change in the run's part, and uuids may be drawn. */
  lemma DeskReplaced(w: World, k: Kernel, desk: Store, issued: nat)
    requires Sane(w) && Mirrors(w, k) && StoreKept(desk) && w.issued <= issued
    requires forall r | r in desk.requests || r in desk.epochs ::
      r == k.state.runId || r in w.desk.requests || r in w.desk.epochs
    requires forall q | q != k.state.runId :: OnlyRun(desk, q) == OnlyRun(w.desk, q)
    ensures
      var n := w.(desk := desk, issued := issued);
      && Sane(n) && Mirrors(n, k.(desk := OnlyRun(desk, k.state.runId), issued := issued)) && Apart(w, n, k.state.runId)
  {
    hide StoreKept, ActiveOk, CheckpointsHeld, ForestOk, Accounted, OnlyRun, Replay;
  }

  lemma CreatedDomain(st: Store, r: string, step: string, ttl: int, epoch: Option<int>, limit: Option<int>, now: int,
                      id: string)
    ensures
      var n := Created(st, r, step, ttl, epoch, limit, now, id).0;
      forall q | q in n.requests || q in n.epochs :: q == r || q in st.requests || q in st.epochs
  {
    hide LiveRequests, Put;
  }

  lemma SettledDomain(st: Store, r: string, id: string, epoch: Option<int>, now: int)
    requires StoreKept(st)
    ensures
      var n := Settled(st, r, id, epoch, now).0;
      forall q | q in n.requests || q in n.epochs :: q == r || q in st.requests || q in st.epochs
  {
    hide Put;
    if RequestOf(st, r, id).Some? {
      RequestKept(st, r, id);
    }
  }

  // ---- an operation stays with its run ----

  predicate OfRun(f: Result<Kernel, Kernel>, r: string) {
    match f
    case Success(n) => n.state.runId == r
    case Failure(n) => n.state.runId == r
  }

  lemma EndOfRun(k: Kernel, error: string, step: string, payload: Value)
    ensures OfRun(Complete(k), k.state.runId) && OfRun(FailRun(k, error), k.state.runId)
    ensures OfRun(AskApproval(k, step, payload), k.state.runId)
  {
    hide Save, Read;
    SaveKeeps(k, k.state.(currentStep := None, status := COMPLETED));
    SaveKeeps(k, k.state.(status := FAILED, error := Some(error)));
    SaveKeeps(k, k.state.(pendingApproval := Some(step), status := WAITING_APPROVAL, pendingInput := Some(payload)));
  }

  lemma TransitOfRun(k: Kernel, step: string, next: string, handoff: Option<string>, payload: Value)
    ensures OfRun(Transit(k, step, next, handoff, payload), k.state.runId)
  {
    hide Save, Read, Complete;
    var k1 := if handoff.Some? then Emit(k, HandoffAccepted(handoff.value, next)) else k;
    var k2 := Emit(k1, TransitionChosen(step, next));
    EndOfRun(k2, "", "", Null);
    SaveKeeps(k2, k2.state.(currentStep := Some(next)));
  }

  lemma RouteOfRun(setup: Setup, k: Kernel, step: Step, output: Value, handoff: Option<string>,
                   command: Option<Command>)
    ensures OfRun(Route(setup, k, step, output, handoff, command), k.state.runId)
  {
    hide Save, Read, RouteNext, Transit, FailRun;
    match RouteNext(step, output, setup.workflow.steps, handoff, GotoOf(command), setup.str)
    case Success(next) => TransitOfRun(k, step.name, next, handoff, output);
    case Failure(_) =>
      EndOfRun(if handoff.Some? then Emit(k, HandoffRejected(handoff.value)) else k, "illegal transition", "", Null);
  }

  lemma PauseOfRun(setup: Setup, k: Kernel, step: Step, output: Value, handoff: Option<string>, command: Command,
                   now: int)
    requires command.interrupt.Some?
    ensures OfRun(Pause(setup, k, step, output, handoff, command, now), k.state.runId)
  {
    hide Save, Read, Created, Saved;
    var c := Created(k.desk, k.state.runId, step.name, command.interrupt.value.ttlSeconds.GetOr(setup.defaultTtl),
                     Some(k.state.epoch), Some(setup.maxPending), now, Uuid(k.issued));
    if c.1.Success? {
      SaveKeeps(k.(desk := c.0, issued := k.issued + 1),
                k.state.(pendingInterruptId := Some(c.1.value.interruptId), status := WAITING_INTERRUPT,
                         pendingResume := Some(Continuation(step.name, output, handoff, command))));
    }
  }

  lemma FinishOfRun(setup: Setup, k: Kernel, step: Step, out: Outcome, now: int)
    requires out.Finished?
    ensures OfRun(Finish(setup, k, step, out, now), k.state.runId)
  {
    hide Save, Pause, Route, ApplyUpdate, Recorded;
    var output := OutputOf(out.output, out.command);
    var update := if out.command.Some? then out.command.value.stateUpdate else map[];
    var channels := ApplyUpdate(setup, k.state.channels, update);
    if channels.Some? {
      RecordedKeeps(k.state, step, output, channels.value);
      SaveKeeps(k, Recorded(k.state, step, output, channels.value));
    }
    var r := Record(setup, k, step, output, out.command);
    if r.Success? {
      if out.command.Some? && out.command.value.interrupt.Some? {
        PauseOfRun(setup, r.value, step, output, out.handoff, out.command.value, now);
      } else {
        RouteOfRun(setup, r.value, step, output, out.handoff, out.command);
      }
    }
  }

  lemma AttemptOfRun(setup: Setup, k: Kernel, payload: Value, turn: Turn)
    ensures OfRun(Attempt(setup, k, payload, turn), k.state.runId)
  {
    hide Save, Read, Finish, Complete, FailRun, AskApproval, MissingArtifact, RequiresApproval, Find, Admitted;
    EndOfRun(k, "", "", payload);
    if k.state.currentStep.Some? && Find(setup.workflow.steps, k.state.currentStep.value).Some? {
      var step := Find(setup.workflow.steps, k.state.currentStep.value).value;
      var k1 := Emit(k, StepEntered(step.name));
      EndOfRun(k1, "", step.name, payload);
      EndOfRun(Emit(k1, PolicyDenied(step.name)), turn.denied.GetOr(""), "", payload);
      var k2 := Emit(k1, ExecutionStarted(step.name));
      var out := Admitted(step, turn.outcome);
      EndOfRun(k2, if out.Fails? then out.error else "", step.name, payload);
      if out.Finished? {
        FinishOfRun(setup, Emit(k2, ExecutionCompleted(step.name)), step, out, turn.now);
      }
    }
  }

  /** The part of a pause after its request is created. */
  function Held(k: Kernel, t: RunState, q: Request, stepName: string): Result<Kernel, Kernel> {
    var k1 :- Save(k, t);
    var k2 := if q.epoch != k1.state.epoch then k1.(desk := Saved(k1.desk, q.(epoch := k1.state.epoch))) else k1;
    Success(Emit(k2, InterruptRequested(stepName, q.interruptId, k1.state.epoch)).(phase := Idle))
  }

  lemma PauseHolds(setup: Setup, k: Kernel, step: Step, output: Value, handoff: Option<string>, command: Command,
                   now: int)
    requires command.interrupt.Some?
    ensures
      var c := Created(k.desk, k.state.runId, step.name, command.interrupt.value.ttlSeconds.GetOr(setup.defaultTtl),
                       Some(k.state.epoch), Some(setup.maxPending), now, Uuid(k.issued));
      c.1.Success? ==>
        Pause(setup, k, step, output, handoff, command, now) ==
          Held(k.(desk := c.0, issued := k.issued + 1),
               k.state.(pendingInterruptId := Some(c.1.value.interruptId), status := WAITING_INTERRUPT,
                        pendingResume := Some(Continuation(step.name, output, handoff, command))),
               c.1.value, step.name)
  {
    hide Save, Emit, Saved, Created, Uuid;
  }

  /** What resume_workflow comes to: a KeyError, an ApprovalRequiredError, or the run as it is then. */
  datatype Resumption = UnknownRun | NotResumable(state: RunState) | Went(last: RunState, phase: Phase)

  /** An update lists each of its channels once. */
  ghost predicate Lists(keys: seq<string>, update: map<string, Value>) {
    NoDuplicates(keys) && forall c :: c in keys <==> c in update
  }

  ghost predicate Orderly(setup: Setup) {
    forall update :: Lists(setup.order(update), update)
  }

  class LocalRuntime {
    const setup: Setup
    const store: InMemoryRunStore
    const manager: InterruptManager
    var runs: map<string, RunState>
    var audit: map<string, seq<Event>>
    var issued: nat
    ghost var lineages: map<string, seq<RunState>>
    ghost var registered: map<string, string>

    ghost function View(): World
      reads this, store, manager.store
    {
      World(runs, store.View(), manager.store.View(), audit, issued, lineages, registered)
    }

    ghost predicate Valid()
      reads this, store, manager.store
    {
      manager.defaultTtl == setup.defaultTtl && Orderly(setup) && Sane(View())
    }

    /** A runtime over stores that are empty or that earlier runtimes have used: its cache and its trails
        are empty, and the uuids it draws are new. */
    constructor (setup: Setup, store: InMemoryRunStore, manager: InterruptManager, issued: nat,
                 ghost lineages: map<string, seq<RunState>>, ghost registered: map<string, string>)
      requires manager.defaultTtl == setup.defaultTtl && Orderly(setup)
      requires Sane(World(map[], store.View(), manager.store.View(), map[], issued, lineages, registered))
      ensures Valid() && this.setup == setup && this.store == store && this.manager == manager
      ensures View() == World(map[], store.View(), manager.store.View(), map[], issued, lineages, registered)
    {
      this.setup, this.store, this.manager := setup, store, manager;
      this.runs, this.audit, this.issued := map[], map[], issued;
      this.lineages, this.registered := lineages, registered;
    }

    /** _emit_audit_event. */
    method EmitEvent(ghost k: Kernel, r: string, e: Event)
      requires Valid() && Mirrors(View(), k) && r == k.state.runId
      modifies this`audit
      ensures Valid() && Mirrors(View(), Emit(k, e)) && Apart(old(View()), View(), r)
      ensures View() == old(View()).(audit := audit)
    {
      hide Sane, Mirrors, Apart, Emit;
      EventKept(View(), k, e);
      audit := audit[r := TrailAt(audit, r) + [e]];
    }

    /** _persist_state: link, put, report, and clear the active run when it has ended. */
    method PutState(s: RunState) returns (res: Result<RunState, RunState>)
      modifies this, store
      ensures (View(), res) == PutWorld(old(View()), s)
    {
      hide MemPut, MemClearActive, Uuid, InMemoryRunStore.View, InMemoryInterruptStore.View, TrailAt, LineageAt;
      ghost var v := View();
      var linked := s.(parentCheckpointId := s.checkpointId, checkpointId := None);
      runs := runs[s.runId := linked];
      var put := store.Put(linked, Uuid(issued));
      if put.Failure? {
        return Failure(linked);
      }
      var w := put.value;
      issued := issued + 1;
      runs := runs[s.runId := w];
      assert runs == v.runs[s.runId := w];
      lineages := lineages[s.runId := LineageAt(lineages, s.runId) + [w]];
      audit := audit[s.runId := TrailAt(audit, s.runId)
          + [CheckpointWritten(w.checkpointId.GetOr(""), w.parentCheckpointId)]];
      if Terminal(w.status) {
        store.ClearActiveRunId(w.threadId, w.runId);
      }
      return Success(w);
    }

    /** The same against the run's kernel. */
    method PersistState(ghost k: Kernel, s: RunState) returns (res: Result<RunState, RunState>)
      requires Valid() && Mirrors(View(), k) && s.runId == k.state.runId && s.checkpointId == k.state.checkpointId
      requires k.stored.Some? ==> !Terminal(k.stored.value.status) && k.stored.value.threadId == s.threadId
      modifies this, store
      ensures Valid() && Apart(old(View()), View(), s.runId) && registered == old(registered) && old(issued) <= issued
      ensures match Save(k, s)
        case Success(n) => res == Success(n.state) && Mirrors(View(), n)
        case Failure(n) => res == Failure(n.state) && Mirrors(View(), n)
    {
      hide Sane, Apart, Mirrors, PutWorld, Save;
      Persisted(View(), k, s);
      res := PutState(s);
    }

    // ---- interrupts, through the manager ----

    method CreateInterrupt(ghost k: Kernel, r: string, stepName: string, ttlSeconds: Option<int>, epoch: int, now: int)
      returns (res: Result<Request, InterruptError>)
      requires Valid() && Mirrors(View(), k) && r == k.state.runId
      modifies this`issued, manager.store
      ensures Valid() && Apart(old(View()), View(), r) && registered == old(registered) && old(issued) <= issued
      ensures
        var c := Created(k.desk, r, stepName, ttlSeconds.GetOr(setup.defaultTtl), Some(epoch), Some(setup.maxPending),
            now, Uuid(k.issued));
        && res == c.1
        && Mirrors(View(), k.(desk := c.0, issued := if c.1.Success? then k.issued + 1 else k.issued))
    {
      hide IdsOk, ActiveOk, CheckpointsHeld, ForestOk, Accounted, StoreKept, Created, SliceOf, OnlyRun, Replay,
        InMemoryRunStore.View, InMemoryInterruptStore.View;
      ghost var v := View();
      ghost var ttl := ttlSeconds.GetOr(setup.defaultTtl);
      ghost var whole := Created(v.desk, r, stepName, ttl, Some(epoch), Some(setup.maxPending), now, Uuid(issued));
      OnlyCreated(v.desk, r, stepName, ttl, epoch, setup.maxPending, now, Uuid(issued));
      CreatedKept(v.desk, r, stepName, ttl, Some(epoch), Some(setup.maxPending), now, Uuid(issued));
      CreatedDomain(v.desk, r, stepName, ttl, Some(epoch), Some(setup.maxPending), now, Uuid(issued));
      DeskReplaced(v, k, whole.0, if whole.1.Success? then issued + 1 else issued);
      MirrorsDesk(v, k);
      res := manager.Create(r, stepName, ttlSeconds, Some(epoch), Some(setup.maxPending), now, Uuid(issued));
      if res.Success? {
        issued := issued + 1;
      }
    }

    method SyncRequest(ghost k: Kernel, q: Request)
      requires Valid() && Mirrors(View(), k) && q.runId == k.state.runId
      modifies manager.store
      ensures Valid() && Apart(old(View()), View(), q.runId) && Mirrors(View(), k.(desk := Saved(k.desk, q)))
    {
      hide IdsOk, ActiveOk, CheckpointsHeld, ForestOk, Accounted, StoreKept, SliceOf, OnlyRun, Replay,
        InMemoryRunStore.View, InMemoryInterruptStore.View, Saved;
      ghost var v := View();
      SavedKept(v.desk, q);
      SavedDomain(v.desk, q);
      forall r ensures OnlyRun(Saved(v.desk, q), r) == if q.runId == r then Saved(OnlyRun(v.desk, r), q)
        else OnlyRun(v.desk, r) {
        OnlySaved(v.desk, q, r);
      }
      DeskReplaced(v, k, Saved(v.desk, q), issued);
      MirrorsDesk(v, k);
      manager.store.SaveRequest(q);
    }

    method SettleInterrupt(ghost k: Kernel, r: string, id: string, epoch: int, now: int)
      returns (res: Result<Request, InterruptError>)
      requires Valid() && Mirrors(View(), k) && r == k.state.runId
      modifies manager.store
      ensures Valid() && Apart(old(View()), View(), r)
      ensures
        var c := Settled(k.desk, r, id, Some(epoch), now);
        res == c.1 && Mirrors(View(), k.(desk := c.0))
    {
      hide IdsOk, ActiveOk, CheckpointsHeld, ForestOk, Accounted, StoreKept, Settled, SliceOf, OnlyRun, Replay,
        InMemoryRunStore.View, InMemoryInterruptStore.View;
      ghost var v := View();
      ghost var whole := Settled(v.desk, r, id, Some(epoch), now);
      OnlySettled(v.desk, r, id, Some(epoch), now);
      SettledKept(v.desk, r, id, Some(epoch), now);
      SettledDomain(v.desk, r, id, Some(epoch), now);
      DeskReplaced(v, k, whole.0, issued);
      MirrorsDesk(v, k);
      res := manager.Resolve(r, id, Some(epoch), now);
    }

    method BumpEpoch(ghost k: Kernel, r: string)
      requires Valid() && Mirrors(View(), k) && r == k.state.runId
      modifies manager.store
      ensures Valid() && Apart(old(View()), View(), r) && Mirrors(View(), k.(desk := Bumped(k.desk, r)))
    {
      hide IdsOk, ActiveOk, CheckpointsHeld, ForestOk, Accounted, StoreKept, SliceOf, OnlyRun, Replay,
        InMemoryRunStore.View, InMemoryInterruptStore.View, Bumped;
      ghost var v := View();
      BumpedKept(v.desk, r);
      BumpedDomain(v.desk, r);
      forall q ensures OnlyRun(Bumped(v.desk, r), q) == if r == q then Bumped(OnlyRun(v.desk, q), q)
        else OnlyRun(v.desk, q) {
        OnlyBumped(v.desk, r, q);
      }
      DeskReplaced(v, k, Bumped(v.desk, r), issued);
      MirrorsDesk(v, k);
      var epoch := manager.BumpEpoch(r);
    }

    // ---- the moves of the loop ----

    method EndRun(ghost k: Kernel, s: RunState) returns (res: Return)
      requires Valid() && Mirrors(View(), k) && Open(k) && s == k.state
      modifies this, store, manager.store
      ensures Valid() && Apart(old(View()), View(), s.runId) && registered == old(registered) && old(issued) <= issued
      ensures Follows(View(), Complete(k), res)
    {
      hide InMemoryRunStore.View, InMemoryInterruptStore.View, Orderly, Sane, SliceOf, Replay, Save, Emit, Read;
      var t := s.(currentStep := None, status := COMPLETED);
      SaveKeeps(k, t);
      var r := PersistState(k, t);
      if r.Failure? {
        return Failure(r.error);
      }
      ghost var n := Save(k, t).value;
      EmitEvent(n, s.runId, RunCompleted);
      EmitState(n, RunCompleted);
      return Success((r.value, Idle));
    }

    method FailWith(ghost k: Kernel, s: RunState, error: string) returns (res: Return)
      requires Valid() && Mirrors(View(), k) && Open(k) && s == k.state
      modifies this, store, manager.store
      ensures Valid() && Apart(old(View()), View(), s.runId) && registered == old(registered) && old(issued) <= issued
      ensures Follows(View(), FailRun(k, error), res)
    {
      hide InMemoryRunStore.View, InMemoryInterruptStore.View, Orderly, Sane, SliceOf, Replay, Save, Emit, Read;
      var t := s.(status := FAILED, error := Some(error));
      SaveKeeps(k, t);
      var r := PersistState(k, t);
      if r.Failure? {
        return Failure(r.error);
      }
      ghost var n := Save(k, t).value;
      EmitEvent(n, s.runId, RunFailed);
      EmitState(n, RunFailed);
      return Success((r.value, Idle));
    }

    method RequestApproval(ghost k: Kernel, s: RunState, step: string, payload: Value) returns (res: Return)
      requires Valid() && Mirrors(View(), k) && Open(k) && s == k.state
      modifies this, store, manager.store
      ensures Valid() && Apart(old(View()), View(), s.runId) && registered == old(registered) && old(issued) <= issued
      ensures Follows(View(), AskApproval(k, step, payload), res)
    {
      hide InMemoryRunStore.View, InMemoryInterruptStore.View, Orderly, Sane, SliceOf, Replay, Save, Emit, Read;
      var t := s.(pendingApproval := Some(step), status := WAITING_APPROVAL, pendingInput := Some(payload));
      SaveKeeps(k, t);
      var r := PersistState(k, t);
      if r.Failure? {
        return Failure(r.error);
      }
      ghost var n := Save(k, t).value;
      EmitEvent(n, s.runId, ApprovalRequested(step));
      EmitState(n, ApprovalRequested(step));
      return Success((r.value, Idle));
    }

    /** _apply_state_update: the channels one by one, as the update lists them; a reducer that raises leaves
        those before it updated. */
    method ApplyStateUpdate(channels: map<string, Value>, update: map<string, Value>)
      returns (ok: bool, now: map<string, Value>)
      requires Orderly(setup)
      ensures ok <==> ApplyUpdate(setup, channels, update).Some?
      ensures ok ==> Some(now) == ApplyUpdate(setup, channels, update)
      ensures !ok ==> now == Reached(setup, channels, update, setup.order(update))
    {
      hide PartlyReduced, Reductions, Reached, ApplyUpdate, Seen;
      var keys := setup.order(update);
      now := channels;
      assert Lists(keys, update) && keys[0..] == keys;
      ReducedNone(setup, channels, update);
      SeenEnds(keys, update);
      for i := 0 to |keys|
        invariant forall c | c in Seen(keys, i) :: setup.reduce(c, Get(channels, c), update[c]).Some?
        invariant now == channels + PartlyReduced(setup, channels, update, Seen(keys, i))
        invariant Reached(setup, now, update, keys[i..]) == Reached(setup, channels, update, keys)
      {
        var c := keys[i];
        SeenNext(keys, i);
        ReducedNext(setup, channels, update, Seen(keys, i), c);
        ReachedNext(setup, now, update, keys, i);
        var reduced := setup.reduce(c, Get(now, c), update[c]);
        if reduced.None? {
          NotApplied(setup, channels, update, c);
          return false, now;
        }
        now := now[c := reduced.value];
      }
      ReducedAll(setup, channels, update);
      Applied(setup, channels, update);
      return true, now;
    }

    method RecordOutput(ghost k: Kernel, s: RunState, step: Step, output: Value, command: Option<Command>)
      returns (res: Result<RunState, RunState>)
      requires Valid() && Mirrors(View(), k) && Open(k) && s == k.state
      modifies this, store, manager.store
      ensures Valid() && Apart(old(View()), View(), s.runId) && registered == old(registered) && old(issued) <= issued
      ensures match Record(setup, k, step, output, command)
        case Success(n) => res == Success(n.state) && Mirrors(View(), n)
        case Failure(n) => res == Failure(n.state) && Mirrors(View(), n)
    {
      hide InMemoryRunStore.View, InMemoryInterruptStore.View, Orderly, Sane, SliceOf, Replay, Save, ApplyUpdate,
        Recorded, Reached;
      var update := if command.Some? then command.value.stateUpdate else map[];
      var applied, channels := ApplyStateUpdate(s.channels, update);
      if !applied {
        ghost var v := View();
        var left := s.(channels := channels);
        runs := runs[s.runId := left];
        CacheReplaced(v, k, left);
        return Failure(left);
      }
      var t := Recorded(s, step, output, channels);
      RecordedKeeps(s, step, output, channels);
      SaveKeeps(k, t);
      var r := PersistState(k, t);
      if r.Failure? {
        return Failure(r.error);
      }
      ghost var v, n := View(), Save(k, t).value;
      var spent := r.value.(approvedSteps := r.value.approvedSteps - {step.name});
      runs := runs[s.runId := spent];
      CacheReplaced(v, n, spent);
      return Success(spent);
    }

    /** The rest of a pause, once its request exists: save, set the request's epoch, report. */
    method HoldRun(ghost k: Kernel, t: RunState, q: Request, stepName: string) returns (res: Return)
      requires Valid() && Mirrors(View(), k) && Open(k) && t.runId == k.state.runId && t.threadId == k.state.threadId
      requires t.checkpointId == k.state.checkpointId && q.runId == t.runId
      modifies this, store, manager.store
      ensures Valid() && Apart(old(View()), View(), t.runId) && registered == old(registered) && old(issued) <= issued
      ensures Follows(View(), Held(k, t, q, stepName), res)
    {
      hide InMemoryRunStore.View, InMemoryInterruptStore.View, Orderly, Sane, SliceOf, Replay, Save, Emit, Read, Saved,
        Apart;
      ghost var v0 := View();
      SaveKeeps(k, t);
      var r := PersistState(k, t);
      if r.Failure? {
        return Failure(r.error);
      }
      ghost var v2 := View();
      ghost var k1 := Save(k, t).value;
      ghost var k2 := k1;
      if q.epoch != r.value.epoch {
        SyncRequest(k1, q.(epoch := r.value.epoch));
        ApartTrans(v0, v2, View(), t.runId);
        k2 := k1.(desk := Saved(k1.desk, q.(epoch := r.value.epoch)));
      }
      ghost var v3 := View();
      EmitEvent(k2, t.runId, InterruptRequested(stepName, q.interruptId, r.value.epoch));
      EmitState(k2, InterruptRequested(stepName, q.interruptId, r.value.epoch));
      ApartTrans(v0, v3, View(), t.runId);
      return Success((r.value, Idle));
    }

    method PauseRun(ghost k: Kernel, s: RunState, step: Step, output: Value, handoff: Option<string>, command: Command,
                    now: int)
      returns (res: Return)
      requires command.interrupt.Some?
      requires Valid() && Mirrors(View(), k) && Open(k) && s == k.state
      modifies this, store, manager.store
      ensures Valid() && Apart(old(View()), View(), s.runId) && registered == old(registered) && old(issued) <= issued
      ensures Follows(View(), Pause(setup, k, step, output, handoff, command, now), res)
    {
      hide InMemoryRunStore.View, InMemoryInterruptStore.View, Orderly, Sane, SliceOf, Replay, Save, Emit, Read,
        Created, Saved, Apart, Uuid, Held;
      ghost var v0 := View();
      ghost var ttl := command.interrupt.value.ttlSeconds.GetOr(setup.defaultTtl);
      ghost var c := Created(k.desk, s.runId, step.name, ttl, Some(s.epoch), Some(setup.maxPending), now,
          Uuid(k.issued));
      var created := CreateInterrupt(k, s.runId, step.name, command.interrupt.value.ttlSeconds, s.epoch, now);
      if created.Failure? {
        return Failure(s);
      }
      var q := created.value;
      ghost var v1 := View();
      CreatedRequest(k.desk, s.runId, step.name, ttl, s.epoch, setup.maxPending, now, Uuid(k.issued));
      ghost var k0 := k.(desk := c.0, issued := k.issued + 1);
      var t := s.(pendingInterruptId := Some(q.interruptId), status := WAITING_INTERRUPT,
                  pendingResume := Some(Continuation(step.name, output, handoff, command)));
      PauseHolds(setup, k, step, output, handoff, command, now);
      res := HoldRun(k0, t, q, step.name);
      ApartTrans(v0, v1, View(), s.runId);
    }

    /** _emit_transition_events, then on or to the end. */
    method TakeTransition(ghost k: Kernel, s: RunState, step: string, next: string, handoff: Option<string>,
                          payload: Value)
      returns (res: Return)
      requires Valid() && Mirrors(View(), k) && Open(k) && s == k.state
      modifies this, store, manager.store
      ensures Valid() && Apart(old(View()), View(), s.runId) && registered == old(registered) && old(issued) <= issued
      ensures Follows(View(), Transit(k, step, next, handoff, payload), res)
    {
      hide InMemoryRunStore.View, InMemoryInterruptStore.View, Orderly, Sane, SliceOf, Replay, Save, Emit, Read,
        Complete;
      ghost var k1 := k;
      if handoff.Some? {
        EmitEvent(k, s.runId, HandoffAccepted(handoff.value, next));
        EmitState(k, HandoffAccepted(handoff.value, next));
        k1 := Emit(k, HandoffAccepted(handoff.value, next));
      }
      EmitEvent(k1, s.runId, TransitionChosen(step, next));
      EmitState(k1, TransitionChosen(step, next));
      ghost var k2 := Emit(k1, TransitionChosen(step, next));
      if next == END_STEP {
        res := EndRun(k2, s);
        return;
      }
      var t := s.(currentStep := Some(next));
      SaveKeeps(k2, t);
      var r := PersistState(k2, t);
      if r.Failure? {
        return Failure(r.error);
      }
      return Success((r.value, Advancing(payload)));
    }

    method RouteOn(ghost k: Kernel, s: RunState, step: Step, output: Value, handoff: Option<string>,
                   command: Option<Command>)
      returns (res: Return)
      requires Valid() && Mirrors(View(), k) && Open(k) && s == k.state
      modifies this, store, manager.store
      ensures Valid() && Apart(old(View()), View(), s.runId) && registered == old(registered) && old(issued) <= issued
      ensures Follows(View(), Route(setup, k, step, output, handoff, command), res)
    {
      hide InMemoryRunStore.View, InMemoryInterruptStore.View, Orderly, Sane, SliceOf, Replay, Emit, Read, Transit,
        FailRun, RouteNext, Follows;
      match RouteNext(step, output, setup.workflow.steps, handoff, GotoOf(command), setup.str) {
        case Success(next) =>
          res := TakeTransition(k, s, step.name, next, handoff, output);
        case Failure(_) =>
          ghost var k1 := k;
          if handoff.Some? {
            EmitEvent(k, s.runId, HandoffRejected(handoff.value));
            EmitState(k, HandoffRejected(handoff.value));
            k1 := Emit(k, HandoffRejected(handoff.value));
          }
          res := FailWith(k1, s, "illegal transition");
      }
    }

    method FinishStep(ghost k: Kernel, s: RunState, step: Step, out: Outcome, now: int) returns (res: Return)
      requires out.Finished? && k.state.status == RUNNING
      requires Valid() && Mirrors(View(), k) && Open(k) && s == k.state
      modifies this, store, manager.store
      ensures Valid() && Apart(old(View()), View(), s.runId) && registered == old(registered) && old(issued) <= issued
      ensures Follows(View(), Finish(setup, k, step, out, now), res)
    {
      hide InMemoryRunStore.View, InMemoryInterruptStore.View, Orderly, Sane, SliceOf, Replay, Record, Pause, Route;
      var output := OutputOf(out.output, out.command);
      RecordOpen(setup, k, step, output, out.command);
      var recorded := RecordOutput(k, s, step, output, out.command);
      if recorded.Failure? {
        return Failure(recorded.error);
      }
      ghost var k1 := Record(setup, k, step, output, out.command).value;
      if out.command.Some? && out.command.value.interrupt.Some? {
        res := PauseRun(k1, recorded.value, step, output, out.handoff, out.command.value, now);
      } else {
        res := RouteOn(k1, recorded.value, step, output, out.handoff, out.command);
      }
    }

    method ExecuteStep(ghost k: Kernel, s: RunState, step: Step, payload: Value, turn: Turn) returns (res: Return)
      requires k.state.status == RUNNING
      requires Valid() && Mirrors(View(), k) && Open(k) && s == k.state
      modifies this, store, manager.store
      ensures Valid() && Apart(old(View()), View(), s.runId) && registered == old(registered) && old(issued) <= issued
      ensures Follows(View(), Execute(setup, k, step, payload, turn), res)
    {
      hide InMemoryRunStore.View, InMemoryInterruptStore.View, Orderly, Sane, SliceOf, Replay, Emit, Read, AskApproval,
        FailRun, Finish, Admitted, Follows;
      EmitEvent(k, s.runId, ExecutionStarted(step.name));
      EmitState(k, ExecutionStarted(step.name));
      ghost var k1 := Emit(k, ExecutionStarted(step.name));
      var out := Admitted(step, turn.outcome);
      match out {
        case NeedsApproval =>
          res := RequestApproval(k1, s, step.name, payload);
        case Fails(error) =>
          res := FailWith(k1, s, error);
        case Finished(_, _, _) =>
          EmitEvent(k1, s.runId, ExecutionCompleted(step.name));
          EmitState(k1, ExecutionCompleted(step.name));
          res := FinishStep(Emit(k1, ExecutionCompleted(step.name)), s, step, out, turn.now);
      }
    }

    /** The body of the loop in _advance. */
    method RunIteration(ghost k: Kernel, s: RunState, payload: Value, turn: Turn) returns (res: Return)
      requires k.state.status == RUNNING
      requires Valid() && Mirrors(View(), k) && Open(k) && s == k.state
      modifies this, store, manager.store
      ensures Valid() && Apart(old(View()), View(), s.runId) && registered == old(registered) && old(issued) <= issued
      ensures Follows(View(), Attempt(setup, k, payload, turn), res)
    {
      hide InMemoryRunStore.View, InMemoryInterruptStore.View, Orderly, Sane, SliceOf, Replay, Emit, Read, AskApproval,
        FailRun, Complete, Execute, Find, Follows, RequiresApproval;
      if s.currentStep.None? {
        res := EndRun(k, s);
        return;
      }
      var found := Find(setup.workflow.steps, s.currentStep.value);
      if found.None? {
        FollowsFailure(View(), k);
        return Failure(s);
      }
      var step := found.value;
      EmitEvent(k, s.runId, StepEntered(step.name));
      EmitState(k, StepEntered(step.name));
      ghost var k1 := Emit(k, StepEntered(step.name));
      for i := 0 to |step.requiredArtifacts|
        invariant forall j | 0 <= j < i :: step.requiredArtifacts[j] in s.artifacts
      {
        if step.requiredArtifacts[i] !in s.artifacts {
          FollowsFailure(View(), k1);
          return Failure(s);
        }
      }
      if RequiresApproval(step, s) {
        res := RequestApproval(k1, s, step.name, payload);
      } else if turn.denied.Some? {
        EmitEvent(k1, s.runId, PolicyDenied(step.name));
        EmitState(k1, PolicyDenied(step.name));
        res := FailWith(Emit(k1, PolicyDenied(step.name)), s, turn.denied.value);
      } else {
        res := ExecuteStep(k1, s, step, payload, turn);
      }
    }

    /** _advance, for as many turns as the environment takes. Events of the run may have been emitted by
        earlier runtimes. */
    method Advance(ghost o: Origin, ghost past: seq<Event>, ghost k: Kernel, s: RunState, payload: Value,
                   turns: seq<Turn>)
      returns (last: RunState, phase: Phase)
      requires Accepted(setup.workflow) && Inv(setup, o, After(past, k)) && k.phase == Advancing(payload)
      requires Valid() && Mirrors(View(), k) && s == k.state
      modifies this, store, manager.store
      ensures Valid() && Apart(old(View()), View(), s.runId) && registered == old(registered) && old(issued) <= issued
      ensures
        var n := Run(setup, k, GoAll(turns));
        Mirrors(View(), n) && last == n.state && phase == n.phase && Sound(setup, o, After(past, n))
    {
      hide InMemoryRunStore.View, InMemoryInterruptStore.View, Orderly, Sane, SliceOf, Replay, Inv, Wrecked, Attempt,
        Run, Accepted, GoAll, InLoop, After;
      last, phase := s, Advancing(payload);
      ghost var n := k;
      var i := 0;
      AllTurns(turns);
      AfterParts(past, k);
      while phase.Advancing? && i < |turns|
        invariant 0 <= i <= |turns|
        invariant Valid() && Mirrors(View(), n) && last == n.state && phase == n.phase && last.runId == s.runId
        invariant Apart(old(View()), View(), s.runId) && registered == old(registered) && old(issued) <= issued
        invariant Sound(setup, o, After(past, n))
        invariant Run(setup, n, GoAll(turns[i..])) == Run(setup, k, GoAll(turns))
        decreases |turns| - i
      {
        ghost var v := View();
        AfterParts(past, n);
        LoopOpen(setup, o, past, n);
        LoopGoesOn(setup, o, past, n, turns[i]);
        var res := RunIteration(n, last, phase.payload, turns[i]);
        ApartTrans(old(View()), v, View(), s.runId);
        IteratesTo(setup, n, turns, i);
        FollowsSettled(View(), Attempt(setup, n, phase.payload, turns[i]), res);
        AttemptOfRun(setup, n, phase.payload, turns[i]);
        n := Iterate(setup, n, turns[i]);
        match res {
          case Success(p) =>
            last, phase := p.0, p.1;
          case Failure(left) =>
            last, phase := left, Crashed;
        }
        AfterParts(past, n);
        i := i + 1;
      }
      GoRest(setup, n, turns[i..]);
    }

    // ---- resuming ----

    method OnApproval(ghost k: Kernel, s: RunState, payload: ResumePayload) returns (res: Return)
      requires k.phase == Idle
      requires Valid() && Mirrors(View(), k) && Open(k) && s == k.state
      modifies this, store, manager.store
      ensures Valid() && Apart(old(View()), View(), s.runId) && registered == old(registered) && old(issued) <= issued
      ensures Follows(View(), ResumeApproval(k, payload), res)
    {
      hide InMemoryRunStore.View, InMemoryInterruptStore.View, Orderly, Sane, SliceOf, Replay, Save, Emit, Read,
        FailRun;
      if s.pendingApproval.None? || payload.Answer? {
        return Success((s, Idle));
      }
      if payload.Reject? {
        EmitEvent(k, s.runId, ApprovalRejected(s.currentStep));
        EmitState(k, ApprovalRejected(s.currentStep));
        ghost var k1, v := Emit(k, ApprovalRejected(s.currentStep)), View();
        var t := s.(pendingApproval := None);
        runs := runs[s.runId := t];
        CacheReplaced(v, k1, t);
        res := FailWith(k1.(state := t), t, payload.reason);
        return;
      }
      EmitEvent(k, s.runId, ApprovalGranted(s.currentStep));
      EmitState(k, ApprovalGranted(s.currentStep));
      var t := s.(approvedSteps := s.approvedSteps + {s.pendingApproval.value}, pendingInput := None,
          pendingApproval := None, status := RUNNING);
      ghost var k1 := Emit(k, ApprovalGranted(s.currentStep));
      SaveKeeps(k1, t);
      var r := PersistState(k1, t);
      if r.Failure? {
        return Failure(r.error);
      }
      return Success((r.value, Advancing(s.pendingInput.GetOr(Null))));
    }

    method FollowSaved(ghost k: Kernel, s: RunState, response: Value) returns (res: Return)
      requires Valid() && Mirrors(View(), k) && Open(k) && s == k.state
      modifies this, store, manager.store
      ensures Valid() && Apart(old(View()), View(), s.runId) && registered == old(registered) && old(issued) <= issued
      ensures Follows(View(), FollowContinuation(setup, k, response), res)
    {
      hide InMemoryRunStore.View, InMemoryInterruptStore.View, Orderly, Sane, SliceOf, Replay, Transit, RouteNext, Find;
      var c := s.pendingResume;
      ghost var v := View();
      var t := s.(pendingResume := None);
      runs := runs[s.runId := t];
      CacheReplaced(v, k, t);
      ghost var k1 := k.(state := t);
      if c.None? || c.value.stepName == "" {
        return Success((t, Advancing(response)));
      }
      var found := Find(setup.workflow.steps, c.value.stepName);
      if found.None? {
        return Failure(t);
      }
      var r := RouteNext(found.value, c.value.output, setup.workflow.steps, c.value.handoff, c.value.command.goto,
          setup.str);
      if r.Failure? {
        return Failure(t);
      }
      res := TakeTransition(k1, t, c.value.stepName, r.value, c.value.handoff, if response.Null? then c.value.output
          else response);
    }

    method OnAnswer(ghost k: Kernel, s: RunState, payload: ResumePayload, now: int) returns (res: Return)
      requires k.phase == Idle
      requires Valid() && Mirrors(View(), k) && Open(k) && s == k.state
      modifies this, store, manager.store
      ensures Valid() && Apart(old(View()), View(), s.runId) && registered == old(registered) && old(issued) <= issued
      ensures Follows(View(), ResumeInterrupt(setup, k, payload, now), res)
    {
      hide InMemoryRunStore.View, InMemoryInterruptStore.View, Orderly, Sane, SliceOf, Replay, Save, Emit, Read,
        Settled, Bumped, FollowContinuation;
      if s.pendingInterruptId.None? || !payload.Answer? {
        return Success((s, Idle));
      }
      var given := payload.epoch.GetOr(s.epoch);
      ghost var c := Settled(k.desk, s.runId, payload.interruptId, Some(given), now);
      var settled := SettleInterrupt(k, s.runId, payload.interruptId, given, now);
      ghost var k1 := k.(desk := c.0);
      if settled.Failure? {
        var e := if settled.error.HasExpired? then InterruptExpired(payload.interruptId)
          else InterruptRejectedEpoch(payload.interruptId);
        EmitEvent(k1, s.runId, e);
        EmitState(k1, e);
        return Success((s, Idle));
      }
      BumpEpoch(k1, s.runId);
      ghost var k2 := k1.(desk := Bumped(k1.desk, s.runId));
      var t := s.(pendingInterruptId := None, status := RUNNING);
      SaveKeeps(k2, t);
      var r := PersistState(k2, t);
      if r.Failure? {
        return Failure(r.error);
      }
      ghost var k3 := Save(k2, t).value;
      EmitEvent(k3, s.runId, InterruptResolved(payload.interruptId));
      EmitState(k3, InterruptResolved(payload.interruptId));
      res := FollowSaved(Emit(k3, InterruptResolved(payload.interruptId)), r.value, payload.response);
    }

    /** resume_workflow. The run may be cached here or only stored, by this runtime earlier or by another
        one; it does what the labels of a resume and its turns say, and no other run changes. */
    method ResumeWorkflow(ghost o: Origin, ghost past: seq<Event>, ghost k: Kernel, runId: string,
                          payload: ResumePayload,
                          now: int, turns: seq<Turn>) returns (res: Resumption)
      requires Accepted(setup.workflow) && Valid() && Restorable(setup, View())
      requires runId in runs || runId in store.state ==> runId == k.state.runId && Keeps(View(), k)
      requires (runId in runs || runId in store.state) && Resumable(k) ==>
        k.phase == Idle && Inv(setup, o, After(past, k))
      modifies this, store, manager.store
      ensures Valid() && Restorable(setup, View())
      ensures Apart(old(View()), View(), runId) && registered == old(registered) && old(issued) <= issued
      ensures !(runId in old(runs) || runId in old(store.state)) ==> res == UnknownRun && View() == old(View())
      ensures (runId in old(runs) || runId in old(store.state)) && !Resumable(k) ==>
        res == NotResumable(k.state) && Mirrors(View(), k)
      ensures (runId in old(runs) || runId in old(store.state)) && Resumable(k) ==>
        var n := Run(setup, Resume(setup, k, payload, now), GoAll(turns));
        Mirrors(View(), n) && res == Went(n.state, n.phase)
    {
      hide InMemoryRunStore.View, InMemoryInterruptStore.View, Orderly, Sane, SliceOf, Replay, Inv, Run, Accepted,
        GoAll, InLoop, ResumeApproval, ResumeInterrupt, Open, After, Keeps, Sound, Restorable;
      ghost var v0 := View();
      StoreView();
      var loaded := LoadState(runId);
      if loaded.None? {
        return UnknownRun;
      }
      LoadedMirrors(v0, View(), k);
      ghost var v1 := View();
      LoadedRestorable(setup, v0, v1);
      var s := loaded.value;
      if s.status != WAITING_APPROVAL && s.status != WAITING_INTERRUPT {
        return NotResumable(s);
      }
      var last, phase := ResumeLoaded(o, past, k, s, payload, now, turns);
      ApartTrans(v0, v1, View(), runId);
      ResumeOfRun(setup, k, payload, now);
      ghost var n := Resume(setup, k, payload, now);
      RunOfRun(setup, n, GoAll(turns));
      StillRestorable(setup, o, past, v1, View(), Run(setup, n, GoAll(turns)));
      return Went(last, phase);
    }

    lemma StoreView()
      ensures store.View().state == store.state
    {
    }

    method ResumeLoaded(ghost o: Origin, ghost past: seq<Event>, ghost k: Kernel, s: RunState, payload: ResumePayload,
                        now: int,
                        turns: seq<Turn>) returns (last: RunState, phase: Phase)
      requires Accepted(setup.workflow) && Inv(setup, o, After(past, k)) && k.phase == Idle && Resumable(k)
      requires Valid() && Mirrors(View(), k) && s == k.state
      modifies this, store, manager.store
      ensures Valid() && Apart(old(View()), View(), s.runId) && registered == old(registered) && old(issued) <= issued
      ensures
        var n := Run(setup, Resume(setup, k, payload, now), GoAll(turns));
        Mirrors(View(), n) && last == n.state && phase == n.phase && Sound(setup, o, After(past, n))
    {
      hide InMemoryRunStore.View, InMemoryInterruptStore.View, Orderly, Sane, SliceOf, Replay, Inv, Wrecked, Run,
        Accepted, GoAll, InLoop, ResumeApproval, ResumeInterrupt, Open, After;
      WaitingOpen(setup, o, past, k);
      ResumeGoesOn(setup, o, past, k, payload, now);
      ResumeOfRun(setup, k, payload, now);
      var res: Return;
      if s.status == WAITING_APPROVAL {
        res := OnApproval(k, s, payload);
        FollowsSettled(View(), ResumeApproval(k, payload), res);
      } else {
        res := OnAnswer(k, s, payload, now);
        FollowsSettled(View(), ResumeInterrupt(setup, k, payload, now), res);
      }
      ghost var n, v := Resume(setup, k, payload, now), View();
      AfterParts(past, n);
      match res {
        case Failure(left) =>
          GoRest(setup, n, turns);
          return left, Crashed;
        case Success(p) =>
          if p.1.Advancing? {
            last, phase := Advance(o, past, n, p.0, p.1.payload, turns);
            ApartTrans(old(View()), v, View(), s.runId);
          } else {
            GoRest(setup, n, turns);
            return p.0, p.1;
          }
      }
    }

    // ---- beginning ----

    /** A uuid for a run, its first state in the cache, its interrupt epoch bumped. */
    method AdmitRun(s: RunState, threadId: Option<string>) returns (t: RunState)
      requires Valid() && Known(store.View().checkpoints, s.checkpointId)
      modifies this, manager.store
      ensures Valid() && registered == old(registered) && issued == old(issued) + 1 && store.View() == old(store.View())
      ensures t == s.(runId := Uuid(old(issued)), threadId := threadId.GetOr(Uuid(old(issued))))
      ensures Mirrors(View(), Newborn(t, issued)) && Apart(old(View()), View(), t.runId)
    {
      hide InMemoryRunStore.View, InMemoryInterruptStore.View, Orderly, Sane, SliceOf, Replay, Bumped;
      var runId := Uuid(issued);
      ghost var v := View();
      t := s.(runId := runId, threadId := threadId.GetOr(runId));
      issued := issued + 1;
      runs := runs[runId := t];
      FreshRun(v, t);
      assert View() == v.(runs := v.runs[t.runId := t], issued := v.issued + 1);
      ghost var u := View();
      BumpEpoch(Newborn(t, issued).(desk := EMPTY_STORE), runId);
      ApartTrans(v, u, View(), runId);
    }

    /** _register_active_run. */
    method RegisterActiveRun(ghost k: Kernel, s: RunState)
      requires Valid() && Mirrors(View(), k) && s == k.state && k.stored == Some(s) && !Terminal(s.status)
      modifies this`registered, store
      ensures Valid() && Mirrors(View(), k) && Apart(old(View()), View(), s.runId)
      ensures registered == old(registered)[s.threadId := s.runId]
    {
      hide Sane, Mirrors, Apart, MemSetActive, InMemoryRunStore.View, InMemoryInterruptStore.View;
      Registering(View(), k);
      store.SetActiveRunId(s.threadId, s.runId);
      registered := registered[s.threadId := s.runId];
    }

    /** run_workflow. Without a thread id the run id serves. */
    method RunWorkflow(threadId: Option<string>, data: Value, turns: seq<Turn>) returns (last: RunState, phase: Phase)
      requires Accepted(setup.workflow) && Valid() && Restorable(setup, View())
      modifies this, store, manager.store
      ensures Valid() && Restorable(setup, View()) && old(issued) <= issued
      ensures
        var runId := Uuid(old(issued));
        var thread := threadId.GetOr(runId);
        var born := Begin(setup, runId, thread, setup.workflow.entry.value, data, old(issued) + 1);
        var n := Run(setup, born, GoAll(turns));
        && Mirrors(View(), n) && last == n.state && phase == n.phase && last.runId == runId
        && Apart(old(View()), View(), runId) && registered == old(registered)[thread := runId]
    {
      hide Sound, Restorable, InMemoryRunStore.View, InMemoryInterruptStore.View, Orderly, Sane, SliceOf, Replay, Inv,
        Run, GoAll, Save, Emit, Read, Newborn, Closed, Coherent, Distinct;
      var entry := setup.workflow.entry.value;
      ghost var v := View();
      var s := AdmitRun(BLANK.(currentStep := Some(entry), channels := setup.channelDefaults), threadId);
      ghost var k, v1 := Newborn(s, issued), View();
      BeginWorks(setup, s.runId, s.threadId, entry, data, issued);
      BlankPlaced(setup, s, entry);
      FirstSave(setup, s, issued);
      SaveKeeps(k, s);
      NewbornIs(s, issued);
      var r := PersistState(k, s);
      ghost var k1, v2 := Save(k, s).value, View();
      RegisterActiveRun(k1, r.value);
      ghost var v3 := View();
      EmitEvent(k1, s.runId, RunStarted(Some(entry)));
      EmitState(k1, RunStarted(Some(entry)));
      ghost var k2, v4 := Emit(k1, RunStarted(Some(entry))), View();
      var t := r.value.(status := RUNNING);
      SaveKeeps(k2, t);
      var r2 := PersistState(k2, t);
      ghost var v5 := View();
      ghost var born := Begin(setup, s.runId, s.threadId, entry, data, v1.issued);
      BeginIs(setup, s, data, v1.issued, entry);
      NothingBefore(View(), born);
      last, phase := Advance(Origin(None, Some(entry), [], {}), [], born, r2.value, data, turns);
      ApartTrans(v, v1, v2, s.runId);
      ApartTrans(v, v2, v3, s.runId);
      ApartTrans(v, v3, v4, s.runId);
      ApartTrans(v, v4, v5, s.runId);
      ApartTrans(v, v5, View(), s.runId);
      RunOfRun(setup, born, GoAll(turns));
      StillRestorable(setup, Origin(None, Some(entry), [], {}), [], v, View(), Run(setup, born, GoAll(turns)));
    }

    /** resume_from_checkpoint up to the loop. */
    method BeginRestored(snapshot: RunState, checkpointId: string, payload: Value) returns (s: RunState)
      requires Valid() && Placed(setup, snapshot) && Known(store.View().checkpoints, snapshot.checkpointId)
      modifies this, store, manager.store
      ensures Valid() && old(issued) <= issued
      ensures
        var runId := Uuid(old(issued));
        var born := Restore(snapshot, checkpointId, runId, payload, old(issued) + 1);
        && Mirrors(View(), born) && s == born.state && s.runId == runId
        && Apart(old(View()), View(), runId) && registered == old(registered)[snapshot.threadId := runId]
    {
      hide InMemoryRunStore.View, InMemoryInterruptStore.View, Orderly, Sane, SliceOf, Replay, Inv, Save, Emit, Read,
        Newborn, Names;
      ghost var v := View();
      var blank := AdmitRun(snapshot.(pendingApproval := None, pendingInterruptId := None, error := None,
          status := RUNNING,
                                      pendingInput := None, pendingResume := None), Some(snapshot.threadId));
      ghost var k, v1 := Newborn(blank, issued), View();
      CleanedPlaced(setup, snapshot, blank.runId);
      FirstSave(setup, blank, issued);
      SaveKeeps(k, blank);
      NewbornIs(blank, issued);
      var r := PersistState(k, blank);
      ghost var k1, v2 := Save(k, blank).value, View();
      s := r.value;
      RegisterActiveRun(k1, s);
      ghost var v3 := View();
      var e, f := CheckpointRestored(checkpointId), RunStarted(s.currentStep);
      EmitEvent(k1, s.runId, e);
      EmitState(k1, e);
      ghost var v4 := View();
      EmitEvent(Emit(k1, e), s.runId, f);
      EmitState(Emit(k1, e), f);
      RestoreIs(snapshot, checkpointId, s.runId, payload, v1.issued);
      ApartTrans(v, v1, v2, s.runId);
      ApartTrans(v, v2, v3, s.runId);
      ApartTrans(v, v3, v4, s.runId);
      ApartTrans(v, v4, View(), s.runId);
    }

    /** resume_from_checkpoint, on the checkpoints of the class's own runs. */
    method ResumeFromCheckpoint(checkpointId: string, payload: Value, turns: seq<Turn>)
      returns (res: Option<(RunState, Phase)>)
      requires Accepted(setup.workflow) && Valid() && Restorable(setup, View())
      modifies this, store, manager.store
      ensures Valid() && Restorable(setup, View()) && old(issued) <= issued
      ensures checkpointId !in old(store.checkpoints) ==> res == None && View() == old(View())
      ensures checkpointId in old(store.checkpoints) ==>
        var snapshot := old(store.checkpoints)[checkpointId];
        var runId := Uuid(old(issued));
        var born := Restore(snapshot, checkpointId, runId, payload, old(issued) + 1);
        var n := Run(setup, born, GoAll(turns));
        && Mirrors(View(), n) && res == Some((n.state, n.phase)) && n.state.runId == runId
        && Apart(old(View()), View(), runId) && registered == old(registered)[snapshot.threadId := runId]
    {
      hide InMemoryRunStore.View, InMemoryInterruptStore.View, Orderly, Sane, SliceOf, Replay, Inv, Run, GoAll, Restore,
        Closed, Coherent, Distinct, Names, Sound, Restorable, Placed;
      if checkpointId !in store.checkpoints {
        return None;
      }
      var snapshot := store.checkpoints[checkpointId];
      ghost var v := View();
      FiledUnder(checkpointId);
      HeldPlaced(setup, v, checkpointId);
      ghost var born := Restore(snapshot, checkpointId, Uuid(issued), payload, issued + 1);
      RestoreWorks(setup, snapshot, checkpointId, Uuid(issued), payload, issued + 1);
      var s := BeginRestored(snapshot, checkpointId, payload);
      ghost var v1 := View();
      NothingBefore(View(), born);
      var last, phase := Advance(Resumed(snapshot), [], born, s, payload, turns);
      ApartTrans(v, v1, View(), s.runId);
      RunOfRun(setup, born, GoAll(turns));
      StillRestorable(setup, Resumed(snapshot), [], v, View(), Run(setup, born, GoAll(turns)));
      return Some((last, phase));
    }

    lemma FiledUnder(c: string)
      requires Valid() && c in store.checkpoints
      ensures store.checkpoints[c].checkpointId == Some(c) && store.View().checkpoints == store.checkpoints
    {
      hide StoreKept, ActiveOk, CheckpointsHeld, Accounted, IdsOk, OnlyRun;
      assert Rooted(store.View().checkpoints, c);
    }

    /** _load_state: the cached state, or the stored one, which is cached then. */
    method LoadState(runId: string) returns (res: Option<RunState>)
      requires Valid()
      modifies this`runs
      ensures Valid() && Apart(old(View()), View(), runId)
      ensures runId in old(runs) ==> res == Some(old(runs)[runId]) && View() == old(View())
      ensures runId !in old(runs) ==>
        && res == Existing(store.View(), runId)
        && View() == old(View()).(runs := if res.Some? then old(runs)[runId := res.value] else old(runs))
    {
      hide StoreKept, ActiveOk, CheckpointsHeld, OnlyRun;
      if runId in runs {
        return Some(runs[runId]);
      }
      if runId !in store.state {
        return None;
      }
      runs := runs[runId := store.state[runId]];
      return Some(runs[runId]);
    }

    /** The run a thread's calls go to: registered last, as long as it has not ended. */
    method ActiveRun(threadId: string) returns (r: Option<string>)
      requires Valid()
      modifies store
      ensures View() == old(View())
      ensures
        if threadId in registered && !Terminal(store.state[registered[threadId]].status)
        then r == Some(registered[threadId]) else r == None
    {
      hide StoreKept, IdsOk, CheckpointsHeld;
      r := store.GetActiveRunId(threadId);
    }
  }

  lemma RestoreIs(snapshot: RunState, source: string, runId: string, payload: Value, issued: nat)
    requires Save(Newborn(Cleaned(snapshot, runId), issued), Cleaned(snapshot, runId)).Success?
    ensures
      var k1 := Save(Newborn(Cleaned(snapshot, runId), issued), Cleaned(snapshot, runId)).value;
      Restore(snapshot, source, runId, payload, issued) ==
        Emit(Emit(k1, CheckpointRestored(source)), RunStarted(snapshot.currentStep)).(phase := Advancing(payload))
  {
    hide Save, Emit, Newborn;
  }

  /** A run id drawn now belongs to nothing the runtime holds. */
  lemma FreshRun(w: World, s: RunState)
    requires Sane(w) && s.runId == Uuid(w.issued) && Known(w.mem.checkpoints, s.checkpointId)
    ensures
      var n := w.(runs := w.runs[s.runId := s], issued := w.issued + 1);
      && Sane(n) && Apart(w, n, s.runId)
      && Mirrors(n, Newborn(s, w.issued + 1).(desk := EMPTY_STORE))
  {
    hide StoreKept, ActiveOk, CheckpointsHeld, Bumped;
  }

  lemma NewbornIs(s: RunState, issued: nat)
    ensures var k := Newborn(s, issued);
      k.state == s && k.stored == None && k.phase == Idle && k.issued == issued
        && k.desk == Bumped(EMPTY_STORE, s.runId)
  {
  }

  lemma BlankPlaced(setup: Setup, s: RunState, entry: string)
    requires s.currentStep == Some(entry) && entry in Names(setup.workflow.steps) && s.approvedSteps == {}
      && s.status == PENDING
    ensures Placed(setup, s) && Consistent(s)
  {
  }

  lemma BeginIs(setup: Setup, s: RunState, data: Value, issued: nat, entry: string)
    requires s == BLANK.(runId := s.runId, threadId := s.threadId, currentStep := Some(entry),
        channels := setup.channelDefaults)
    requires Save(Newborn(s, issued), s).Success?
    ensures
      var k2 := Emit(Save(Newborn(s, issued), s).value, RunStarted(Some(entry)));
      var saved := Save(k2, k2.state.(status := RUNNING));
      saved.Success? ==>
        Begin(setup, s.runId, s.threadId, entry, data, issued) == saved.value.(phase := Advancing(data))
  {
    hide Save, Emit, Newborn;
  }

  /** Registering a run that has not ended makes it its thread's active run. */
  lemma Registering(w: World, k: Kernel)
    requires Sane(w) && Mirrors(w, k) && k.stored == Some(k.state) && !Terminal(k.state.status)
    ensures
      var r, t := k.state.runId, k.state.threadId;
      var n := w.(mem := MemSetActive(w.mem, t, r), registered := w.registered[t := r]);
      Sane(n) && Mirrors(n, k) && Apart(w, n, r)
  {
    hide StoreKept, ActiveOk, CheckpointsHeld, ForestOk, Accounted, OnlyRun, Replay, MemSetActive, TrailAt, LineageAt;
    var m := MemSetActive(w.mem, k.state.threadId, k.state.runId);
    IndexEffect(w.mem, k.state.threadId, k.state.runId);
    ActiveRegistered(w.mem, m, w.registered, k.state.threadId, k.state.runId);
    SameTable(w.mem, m, w.lineages);
    SameForest(w.mem, m, w.runs);
    SameAccounts(w.mem, m, w.lineages);
  }

  lemma ActiveRegistered(m: Mem, n: Mem, registered: map<string, string>, t: string, r: string)
    requires ActiveOk(m, registered) && n.state == m.state && n.threadActive == m.threadActive[t := r]
    requires r in m.state && m.state[r].threadId == t && !Terminal(m.state[r].status)
    ensures ActiveOk(n, registered[t := r])
  {
  }

  lemma NextOfRun(setup: Setup, k: Kernel, l: Label)
    requires !l.Lost?
    ensures Next(setup, k, l).state.runId == k.state.runId
  {
    hide Attempt, Resume, Tended;
    if l.Go? && k.phase.Advancing? {
      AttemptOfRun(setup, k, k.phase.payload, l.turn);
    } else if l.Call? {
      ResumeOfRun(setup, k, l.payload, l.now);
    }
  }

  lemma {:induction false} RunOfRun(setup: Setup, k: Kernel, labels: seq<Label>)
    requires Lost !in labels
    ensures Run(setup, k, labels).state.runId == k.state.runId
    decreases |labels|
  {
    hide Next;
    if labels != [] {
      NextOfRun(setup, k, labels[0]);
      RunOfRun(setup, Next(setup, k, labels[0]), labels[1..]);
    }
  }

  lemma LoadedRestorable(setup: Setup, v: World, w: World)
    requires Restorable(setup, v) && w.lineages == v.lineages
    ensures Restorable(setup, w)
  {
    hide CheckpointsPlaced;
  }

  lemma LoadedMirrors(v: World, w: World, k: Kernel)
    requires Keeps(v, k)
    requires k.state.runId in v.runs ==> w == v
    requires k.state.runId !in v.runs ==>
      var stored := Existing(v.mem, k.state.runId);
      stored.Some? && w == v.(runs := v.runs[k.state.runId := stored.value])
    ensures Mirrors(w, k) && k.state.runId in w.runs && w.runs[k.state.runId] == k.state
  {
    hide OnlyRun, Replay;
  }

  lemma AfterParts(past: seq<Event>, k: Kernel)
    ensures
      var n := After(past, k);
      n.phase == k.phase && n.state == k.state && n.stored == k.stored && n.lineage == k.lineage
  {
  }

  /** What a run has written since then is placed too. */
  lemma StillRestorable(setup: Setup, o: Origin, past: seq<Event>, v: World, w: World, k: Kernel)
    requires Restorable(setup, v) && Apart(v, w, k.state.runId) && Mirrors(w, k) && Sound(setup, o, After(past, k))
    ensures Restorable(setup, w)
  {
    hide Storage, OneOpen, Story, Replay, OnlyRun, Placed, TokensOk, HandoffsOk, WalkBase, Walkable;
    forall q | q in w.lineages ensures CheckpointsPlaced(setup, w.lineages[q]) {
      if q == k.state.runId {
        assert SliceOf(w, q).lineage == k.lineage;
      } else {
        assert SliceOf(w, q).lineage == SliceOf(v, q).lineage;
      }
    }
  }

  lemma HeldPlaced(setup: Setup, w: World, c: string)
    requires Sane(w) && Restorable(setup, w) && c in w.mem.checkpoints
    ensures Placed(setup, w.mem.checkpoints[c])
  {
    hide StoreKept, ActiveOk, CheckpointsHeld, ForestOk, IdsOk, Placed;
    var r :| r in w.lineages && w.mem.checkpoints[c] in w.lineages[r];
  }

  lemma NothingBefore(w: World, k: Kernel)
    requires Mirrors(w, k)
    ensures After([], k) == k
  {
    assert [] + k.trail == k.trail;
  }

  /** An iteration, and a resume, keep the invariant whatever was emitted before. */
  lemma LoopGoesOn(setup: Setup, o: Origin, past: seq<Event>, k: Kernel, turn: Turn)
    requires Accepted(setup.workflow) && Inv(setup, o, After(past, k)) && k.phase.Advancing?
    ensures Sound(setup, o, After(past, Iterate(setup, k, turn)))
  {
    hide Accepted, Inv, Wrecked, Iterate, Replay;
    AfterIterate(past, setup, k, turn);
    IterateWorks(setup, o, After(past, k), turn);
  }

  lemma ResumeGoesOn(setup: Setup, o: Origin, past: seq<Event>, k: Kernel, payload: ResumePayload, now: int)
    requires Accepted(setup.workflow) && Inv(setup, o, After(past, k)) && k.phase.Idle?
    ensures Sound(setup, o, After(past, Resume(setup, k, payload, now)))
  {
    hide Accepted, Inv, Wrecked, Resume, Replay;
    AfterResume(past, setup, k, payload, now);
    ResumeWorks(setup, o, After(past, k), payload, now);
  }

  lemma WaitingOpen(setup: Setup, o: Origin, past: seq<Event>, k: Kernel)
    requires Inv(setup, o, After(past, k)) && k.phase == Idle && Resumable(k)
    ensures Open(k)
  {
    hide Linked, OneOpen, Story, Replay, CheckpointsPlaced;
  }

  lemma ResumeOfRun(setup: Setup, k: Kernel, payload: ResumePayload, now: int)
    ensures Resume(setup, k, payload, now).state.runId == k.state.runId
  {
    hide ResumeApproval, ResumeInterrupt;
    ApprovalOfRun(k, payload);
    InterruptOfRun(setup, k, payload, now);
  }

  lemma ApprovalOfRun(k: Kernel, payload: ResumePayload)
    ensures OfRun(ResumeApproval(k, payload), k.state.runId)
  {
    hide Save, Read, FailRun;
    EndOfRun(Emit(k, ApprovalRejected(k.state.currentStep)).(state := k.state.(pendingApproval := None)),
             if payload.Reject? then payload.reason else "", "", Null);
    if k.state.pendingApproval.Some? {
      SaveKeeps(Emit(k, ApprovalGranted(k.state.currentStep)), Approved(k.state));
    }
  }

  lemma InterruptOfRun(setup: Setup, k: Kernel, payload: ResumePayload, now: int)
    ensures OfRun(ResumeInterrupt(setup, k, payload, now), k.state.runId)
  {
    hide Save, Read, Settled, Bumped, FollowContinuation;
    if payload.Answer? {
      var c := Settled(k.desk, k.state.runId, payload.interruptId, Some(payload.epoch.GetOr(k.state.epoch)), now);
      var k0 := k.(desk := Bumped(c.0, k.state.runId));
      SaveKeeps(k0, Answered(k.state));
      if Save(k0, Answered(k.state)).Success? {
        FollowOfRun(setup, Emit(Save(k0, Answered(k.state)).value, InterruptResolved(payload.interruptId)),
            payload.response);
      }
    }
  }

  lemma FollowOfRun(setup: Setup, k: Kernel, response: Value)
    ensures OfRun(FollowContinuation(setup, k, response), k.state.runId)
  {
    hide Transit, RouteNext, Find;
    var c := k.state.pendingResume;
    if c.Some? && Find(setup.workflow.steps, c.value.stepName).Some? {
      var r := RouteNext(Find(setup.workflow.steps, c.value.stepName).value, c.value.output, setup.workflow.steps,
          c.value.handoff,
                         c.value.command.goto, setup.str);
      if r.Success? {
        TransitOfRun(k.(state := k.state.(pendingResume := None)), c.value.stepName, r.value, c.value.handoff,
                     if response.Null? then c.value.output else response);
      }
    }
  }

  /** The loop's turns as labels of the run. */
  function GoAll(turns: seq<Turn>): (labels: seq<Label>)
    ensures forall l | l in labels :: l.Go?
  {
    if turns == [] then [] else [Go(turns[0])] + GoAll(turns[1..])
  }

  lemma AllTurns(turns: seq<Turn>)
    ensures turns[0..] == turns
  {
  }

  lemma IteratesTo(setup: Setup, k: Kernel, turns: seq<Turn>, i: nat)
    requires i < |turns| && k.phase.Advancing?
    ensures Run(setup, k, GoAll(turns[i..])) == Run(setup, Iterate(setup, k, turns[i]), GoAll(turns[i + 1..]))
  {
    hide Iterate;
    assert turns[i..][1..] == turns[i + 1..];
    var labels := GoAll(turns[i..]);
    assert labels[0] == Go(turns[i]) && labels[1..] == GoAll(turns[i + 1..]);
  }

  /** Once the loop is left, or no turn remains, the rest changes nothing. */
  lemma {:induction false} GoRest(setup: Setup, k: Kernel, turns: seq<Turn>)
    requires !k.phase.Advancing? || turns == []
    ensures Run(setup, k, GoAll(turns)) == k
    decreases |turns|
  {
    if turns != [] {
      GoRest(setup, k, turns[1..]);
      assert GoAll(turns)[1..] == GoAll(turns[1..]);
    }
  }

  lemma LoopOpen(setup: Setup, o: Origin, past: seq<Event>, k: Kernel)
    requires Inv(setup, o, After(past, k)) && k.phase.Advancing?
    ensures Open(k) && k.state.status == RUNNING
  {
    hide Linked, OneOpen, Story, Replay, CheckpointsPlaced;
  }

  lemma FollowsSettled(w: World, f: Result<Kernel, Kernel>, res: Return)
    requires Follows(w, f, res)
    ensures Mirrors(w, Settle(f))
    ensures res.Success? ==> Settle(f).state == res.value.0 && Settle(f).phase == res.value.1
    ensures res.Failure? ==> Settle(f).state == res.error && Settle(f).phase == Crashed
  {
  }

  lemma FollowsFailure(w: World, k: Kernel)
    requires Mirrors(w, k)
    ensures Follows(w, Failure(k), Failure(k.state))
  {
  }

  lemma CreatedRequest(desk: Store, r: string, step: string, ttl: int, epoch: int, limit: nat, now: int, id: string)
    ensures
      var c := Created(desk, r, step, ttl, Some(epoch), Some(limit), now, id);
      c.1.Success? ==> c.1.value.runId == r
  {
    hide AgedRun, LiveRequests, Saved;
  }

  /** A recorded run is still open. */
  lemma RecordOpen(setup: Setup, k: Kernel, step: Step, output: Value, command: Option<Command>)
    requires Open(k) && k.state.status == RUNNING
    ensures
      var r := Record(setup, k, step, output, command);
      r.Success? ==> Open(r.value) && r.value.state.runId == k.state.runId
  {
    hide Save, ApplyUpdate;
    var update := if command.Some? then command.value.stateUpdate else map[];
    var channels := ApplyUpdate(setup, k.state.channels, update);
    if channels.Some? {
      SaveKeeps(k, Recorded(k.state, step, output, channels.value));
    }
  }

  /** The reductions of some of the channels. */
  function PartlyReduced(setup: Setup, channels: map<string, Value>, update: map<string, Value>,
                         done: set<string>): map<string, Value>
  {
    map c | c in update && c in done :: setup.reduce(c, Get(channels, c), update[c]).GetOr(Null)
  }

  lemma ReducedNone(setup: Setup, channels: map<string, Value>, update: map<string, Value>)
    ensures channels + PartlyReduced(setup, channels, update, {}) == channels
  {
  }

  lemma ReducedNext(setup: Setup, channels: map<string, Value>, update: map<string, Value>, done: set<string>,
                    c: string)
    requires c in update && c !in done
    ensures
      var now := channels + PartlyReduced(setup, channels, update, done);
      && Get(now, c) == Get(channels, c)
      && now[c := setup.reduce(c, Get(channels, c), update[c]).GetOr(Null)]
         == channels + PartlyReduced(setup, channels, update, done + {c})
  {
  }

  function Seen(keys: seq<string>, n: nat): set<string>
    requires n <= |keys|
    ensures forall c | c in Seen(keys, n) :: c in keys
  {
    set c | c in keys[..n]
  }

  lemma SeenNext(keys: seq<string>, i: nat)
    requires i < |keys| && NoDuplicates(keys)
    ensures keys[i] !in Seen(keys, i) && Seen(keys, i + 1) == Seen(keys, i) + {keys[i]}
  {
    assert keys[..i + 1] == keys[..i] + [keys[i]];
  }

  lemma SeenEnds(keys: seq<string>, update: map<string, Value>)
    requires Lists(keys, update)
    ensures Seen(keys, 0) == {} && Seen(keys, |keys|) == update.Keys
  {
  }

  lemma ReachedNext(setup: Setup, now: map<string, Value>, update: map<string, Value>, keys: seq<string>, i: nat)
    requires i < |keys| && keys[i] in update
    ensures
      var reduced := setup.reduce(keys[i], Get(now, keys[i]), update[keys[i]]);
      Reached(setup, now, update, keys[i..]) ==
        if reduced.None? then now else Reached(setup, now[keys[i] := reduced.value], update, keys[i + 1..])
  {
    assert keys[i..][1..] == keys[i + 1..];
  }

  lemma NotApplied(setup: Setup, channels: map<string, Value>, update: map<string, Value>, c: string)
    requires c in update && setup.reduce(c, Get(channels, c), update[c]).None?
    ensures ApplyUpdate(setup, channels, update).None?
  {
  }

  lemma Applied(setup: Setup, channels: map<string, Value>, update: map<string, Value>)
    requires forall c | c in update :: setup.reduce(c, Get(channels, c), update[c]).Some?
    ensures ApplyUpdate(setup, channels, update) == Some(channels + Reductions(setup, channels, update))
  {
  }

  lemma ReducedAll(setup: Setup, channels: map<string, Value>, update: map<string, Value>)
    ensures PartlyReduced(setup, channels, update, update.Keys) == Reductions(setup, channels, update)
  {
  }

  lemma RecordedKeeps(s: RunState, step: Step, output: Value, channels: map<string, Value>)
    ensures
      var t := Recorded(s, step, output, channels);
      t.runId == s.runId && t.threadId == s.threadId && t.status == s.status && t.checkpointId == s.checkpointId
  {
  }

  /** Changing the cached state touches neither the store nor the other runs. */
  lemma CacheReplaced(w: World, k: Kernel, s: RunState)
    requires Sane(w) && Mirrors(w, k) && s.runId == k.state.runId && s.checkpointId == k.state.checkpointId
    ensures
      var n := w.(runs := w.runs[s.runId := s]);
      Sane(n) && Mirrors(n, k.(state := s)) && Apart(w, n, s.runId)
  {
    hide StoreKept, ActiveOk, CheckpointsHeld, OnlyRun, Replay;
  }

  lemma MirrorsDesk(w: World, k: Kernel)
    requires Mirrors(w, k)
    ensures k.desk == OnlyRun(w.desk, k.state.runId) && k.issued == w.issued
  {
  }

  lemma SavedDomain(st: Store, q: Request)
    ensures forall r | r in Saved(st, q).requests || r in Saved(st, q).epochs ::
      r == q.runId || r in st.requests || r in st.epochs
  {
  }

  lemma BumpedDomain(st: Store, r: string)
    ensures forall q | q in Bumped(st, r).requests || q in Bumped(st, r).epochs ::
      q == r || q in st.requests || q in st.epochs
  {
  }
}
