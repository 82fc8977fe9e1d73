/** The Redis run store refines the in-memory one: one abstraction relation, kept by every operation
    with equal replies, hence over every sequential run of operations. */
module StoreRefinement {
  import opened Prelude
  import opened RunStates
  import opened RunStore
  import opened Sequences
  import opened RedisKeys
  import opened RedisRunStore

  // ---- operations and replies ----

  datatype Op =
    | Put(state: RunState, newId: string)
    | GetRun(runId: string)
    | Delete(runId: string)
    | WriteCheckpoint(state: RunState, newId: string)
    | GetCheckpoint(id: string)
    | LatestCheckpoint(threadId: string)
    | ListCheckpoints(threadId: string)
    | ActiveRun(threadId: string)
    | LatestRun(threadId: string)
    | ListRuns(threadId: string)
    | SetActive(threadId: string, runId: string)
    | ClearActive(threadId: string, runId: string)

  datatype Reply =
    | Done
    | Refused(error: StoreError)
    | Written(state: RunState)
    | CheckpointId(id: string)
    | State(found: Option<RunState>)
    | States(list: seq<RunState>)
    | Run(run: Option<string>)
    | Runs(runs: seq<string>)

  function LastOf(runs: seq<string>): Option<string> {
    if runs == [] then None else Some(runs[|runs| - 1])
  }

  function MemApply(m: Mem, op: Op): (Mem, Reply) {
    match op
    case Put(s, n) => (match MemPut(m, s, n) case Success(r) => (r.0, Written(r.1)) case Failure(e) => (m, Refused(e)))
    case GetRun(r) => (m, State(Existing(m, r)))
    case Delete(r) => (MemDelete(m, r), Done)
    case WriteCheckpoint(s, n) => (MemWriteCheckpoint(m, s, n), CheckpointId(ChosenId(s, n)))
    case GetCheckpoint(c) => (m, State(MemCheckpoint(m, c)))
    case LatestCheckpoint(t) => (m, State(MemLatestCheckpoint(m, t)))
    case ListCheckpoints(t) => (m, States(Snapshots(m.checkpoints, ListAt(m.threadCheckpoints, t))))
    case ActiveRun(t) => (MemActive(m, t).0, Run(MemActive(m, t).1))
    case LatestRun(t) => (MemListRuns(m, t).0, Run(LastOf(MemListRuns(m, t).1)))
    case ListRuns(t) => (MemListRuns(m, t).0, Runs(MemListRuns(m, t).1))
    case SetActive(t, r) => (MemSetActive(m, t, r), Done)
    case ClearActive(t, r) => (MemClearActive(m, t, r), Done)
  }

  function RedisApply(db: Db, p: string, op: Op): (Db, Reply) {
    match op
    case Put(s, n) =>
      (match RPut(db, p, s, n) case Success(r) => (r.0, Written(r.1)) case Failure(e) => (db, Refused(e)))
    case GetRun(r) => (db, State(RGet(db, p, r)))
    case Delete(r) => (RDelete(db, p, r), Done)
    case WriteCheckpoint(s, n) => (RWriteCheckpoint(db, p, s, n), CheckpointId(ChosenId(s, n)))
    case GetCheckpoint(c) => (db, State(RCheckpoint(db, p, c)))
    case LatestCheckpoint(t) => (db, State(RLatestCheckpoint(db, p, t)))
    case ListCheckpoints(t) => (db, States(RSnapshots(db, p, RList(db, p, ThreadCheckpointsKey(t)))))
    case ActiveRun(t) => (RActive(db, p, t).0, Run(RActive(db, p, t).1))
    case LatestRun(t) => (RListRuns(db, p, t).0, Run(LastOf(RListRuns(db, p, t).1)))
    case ListRuns(t) => (RListRuns(db, p, t).0, Runs(RListRuns(db, p, t).1))
    case SetActive(t, r) => (RSetActive(db, p, t, r), Done)
    case ClearActive(t, r) => (RClearActive(db, p, t, r), Done)
  }

  /** Run ids are safe, and a checkpoint id is new to its thread's index: only the in-memory store
      looks for it there. */
  ghost predicate Allowed(m: Mem, op: Op) {
    match op
    case Put(s, n) => SafeRunId(s.runId) && ChosenId(s, n) !in ListAt(m.threadCheckpoints, s.threadId)
    case WriteCheckpoint(s, n) => ChosenId(s, n) !in ListAt(m.threadCheckpoints, s.threadId)
    case GetRun(r) => SafeRunId(r)
    case Delete(r) => SafeRunId(r)
    case SetActive(_, r) => SafeRunId(r)
    case _ => true
  }

  // ---- the abstraction relation ----

  /** What a key must hold when the dictionaries are m. */
  function Expected(m: Mem, k: Key): Option<Entry> {
    match k
    case RunKey(r) => if r in m.state then Some(Snapshot(m.state[r])) else None
    case CheckpointKey(c) => if c in m.checkpoints then Some(Snapshot(m.checkpoints[c])) else None
    case ThreadCheckpointsKey(t) => ListEntry(ListAt(m.threadCheckpoints, t))
    case ThreadRunsKey(t) => ListEntry(ListAt(m.threadRuns, t))
    case ThreadActiveKey(t) => if t in m.threadActive then Some(Plain(m.threadActive[t])) else None
  }

  function ListEntry(ids: seq<string>): Option<Entry> {
    if ids == [] then None else Some(Ids(ids))
  }

  ghost predicate SafeList(ids: seq<string>) {
    NoDuplicates(ids) && forall r | r in ids :: SafeRunId(r)
  }

  ghost predicate WellKept(m: Mem) {
    && (forall t | t in m.threadRuns :: SafeList(m.threadRuns[t]))
    && (forall t | t in m.threadActive :: SafeRunId(m.threadActive[t]))
  }

  ghost predicate Matches(m: Mem, db: Db, p: string) {
    forall k: Key | Safe(k) :: At(db, p, k) == Expected(m, k)
  }

  ghost predicate Sim(m: Mem, db: Db, p: string) {
    Matches(m, db, p) && WellKept(m)
  }

  // ---- sequences ----

  lemma {:induction false} SafeListKept(ids: seq<string>, valid: set<string>)
    requires SafeList(ids)
    ensures SafeList(Keep(ids, valid))
  {
    hide SafeRunId;
    if ids != [] {
      assert ids == [ids[0]] + ids[1..];
      SafeListKept(ids[1..], valid);
      assert ids[0] !in Keep(ids[1..], valid);
    }
  }

  lemma {:induction false} SafeListWithout(ids: seq<string>, v: string)
    requires SafeList(ids)
    ensures SafeList(Without(ids, v))
  {
    hide SafeRunId;
    if ids != [] {
      assert ids == [ids[0]] + ids[1..];
      SafeListWithout(ids[1..], v);
      assert ids[0] !in Without(ids[1..], v);
    }
  }

  lemma {:induction false} UniqueIsIdentity(ids: seq<string>)
    requires NoDuplicates(ids)
    ensures Unique(ids) == ids
  {
    if ids != [] {
      var n := |ids| - 1;
      UniqueIsIdentity(ids[..n]);
      assert ids == ids[..n] + [ids[n]];
      assert ids[n] !in ids[..n];
    }
  }

  lemma {:induction false} PresentIsKeep(m: Mem, db: Db, p: string, runs: seq<string>)
    requires Matches(m, db, p) && forall r | r in runs :: SafeRunId(r)
    ensures Present(db, p, runs) == Keep(runs, m.state.Keys)
  {
    hide SafeRunId, Matches, At, Keep, Only, RGet;
    KeepUnfolds(runs, m.state.Keys);
    if runs != [] {
      RunRead(m, db, p, runs[0]);
      PresentIsKeep(m, db, p, runs[1..]);
    }
  }

  lemma RunRead(m: Mem, db: Db, p: string, r: string)
    requires Matches(m, db, p) && SafeRunId(r)
    ensures RGet(db, p, r).Some? <==> r in m.state.Keys
  {
    hide SafeRunId, Matches, At;
    ReadKey(m, db, p, RunKey(r));
  }

  lemma {:induction false} SnapshotsAgree(m: Mem, db: Db, p: string, ids: seq<string>)
    requires Matches(m, db, p)
    ensures RSnapshots(db, p, ids) == Snapshots(m.checkpoints, ids)
  {
    hide Matches, At, CheckpointAt, ToSeq, RCheckpoint;
    if ids != [] {
      ReadKey(m, db, p, CheckpointKey(ids[0]));
      CheckpointAtIs(m, db, p, ids[0]);
      SnapshotsAgree(m, db, p, ids[1..]);
    }
  }

  lemma CheckpointAtIs(m: Mem, db: Db, p: string, id: string)
    requires At(db, p, CheckpointKey(id)) == Expected(m, CheckpointKey(id))
    ensures ToSeq(RCheckpoint(db, p, id)) == CheckpointAt(m.checkpoints, id)
  {
    hide At;
  }

  lemma ListsSafe(m: Mem, t: string)
    requires WellKept(m)
    ensures SafeList(ListAt(m.threadRuns, t))
  {
  }

  // ---- one key ----

  lemma ReadKey(m: Mem, db: Db, p: string, k: Key)
    requires Matches(m, db, p) && Safe(k)
    ensures At(db, p, k) == Expected(m, k)
  {
    hide SafeRunId, Text;
  }

  /** m and n expect the same of every key but k. */
  ghost predicate DifferAt(m: Mem, n: Mem, k: Key) {
    forall l: Key :: l != k ==> Expected(n, l) == Expected(m, l)
  }

  lemma SetKey(m: Mem, db: Db, p: string, k: Key, e: Entry, n: Mem)
    requires Matches(m, db, p) && Safe(k) && Expected(n, k) == Some(e) && DifferAt(m, n, k)
    ensures Matches(n, db[Text(p, k) := e], p)
  {
    hide SafeRunId, Text, Expected;
    AfterSet(db, p, k, e);
  }

  lemma DeleteKey(m: Mem, db: Db, p: string, k: Key, n: Mem)
    requires Matches(m, db, p) && Safe(k) && Expected(n, k) == None && DifferAt(m, n, k)
    ensures Matches(n, db - {Text(p, k)}, p)
  {
    hide SafeRunId, Text, Expected;
    AfterDelete(db, p, k);
  }

  lemma RewriteKey(m: Mem, db: Db, p: string, k: Key, values: seq<string>, n: Mem)
    requires Matches(m, db, p) && Safe(k) && Expected(n, k) == ListEntry(values) && DifferAt(m, n, k)
    ensures Matches(n, Rewrite(db, p, k, values), p)
  {
    hide SafeRunId, Text, Expected, Matches, DifferAt, Safe;
    if values == [] {
      DeleteKey(m, db, p, k, n);
    } else {
      SetKey(m, db, p, k, Ids(values), n);
    }
  }

  // ---- one operation ----

  lemma SimRecordRun(m: Mem, db: Db, p: string, t: string, r: string)
    requires Sim(m, db, p) && SafeRunId(r)
    ensures Sim(MemRecordRun(m, t, r), RRecordRun(db, p, t, r), p)
  {
    hide SafeRunId, Text, At, Matches;
    var k, runs, n := ThreadRunsKey(t), ListAt(m.threadRuns, t), MemRecordRun(m, t, r);
    ReadKey(m, db, p, k);
    assert SafeList(runs) && SafeList(AddOnce(runs, r));
    if r in runs {
      SameExpectations(m, n, db, p);
    } else {
      SetKey(m, db, p, k, Ids(runs + [r]), n);
    }
  }

  lemma SameExpectations(m: Mem, n: Mem, db: Db, p: string)
    requires Matches(m, db, p) && forall k: Key :: Expected(n, k) == Expected(m, k)
    ensures Matches(n, db, p)
  {
    hide SafeRunId, Text, At, Expected;
  }

  /** Steps shared by a put and a bare checkpoint write: the checkpoint, then its index entry. */
  lemma SimCheckpoint(m: Mem, db: Db, p: string, s: RunState, id: string)
    requires Matches(m, db, p) && id !in ListAt(m.threadCheckpoints, s.threadId)
    ensures
      var n := m.(checkpoints := m.checkpoints[id := s],
                  threadCheckpoints := m.threadCheckpoints[s.threadId := ListAt(m.threadCheckpoints, s.threadId)
                      + [id]]);
      Matches(n, RPush(db[Text(p, CheckpointKey(id)) := Snapshot(s)], p, ThreadCheckpointsKey(s.threadId), id), p)
  {
    hide SafeRunId, Text, At, Matches;
    var m1 := m.(checkpoints := m.checkpoints[id := s]);
    var db1 := db[Text(p, CheckpointKey(id)) := Snapshot(s)];
    SetKey(m, db, p, CheckpointKey(id), Snapshot(s), m1);
    var k, ids := ThreadCheckpointsKey(s.threadId), ListAt(m.threadCheckpoints, s.threadId);
    ReadKey(m1, db1, p, k);
    SetKey(m1, db1, p, k, Ids(ids + [id]), m1.(threadCheckpoints := m.threadCheckpoints[s.threadId := ids + [id]]));
  }

  lemma SimPut(m: Mem, db: Db, p: string, s: RunState, newId: string)
    requires Sim(m, db, p) && Allowed(m, Put(s, newId))
    ensures match (MemPut(m, s, newId), RPut(db, p, s, newId))
      case (Success(a), Success(b)) => a.1 == b.1 && Sim(a.0, b.0, p)
      case (Failure(e), Failure(f)) => e == f
      case _ => false
  {
    hide SafeRunId, Text, At, Matches, RRecordRun, NoDuplicates, MemRecordRun, CommitWrite, WellKept, NextVersion;
    ReadKey(m, db, p, RunKey(s.runId));
    if MemPut(m, s, newId).Success? {
      var id := ChosenId(s, newId);
      var w := NextVersion(Existing(m, s.runId), s, id).value;
      VersionIs(Existing(m, s.runId), s, id);
      SimCommit(m, db, p, w, id);
      SimRecordRun(Committed(m, w, id), CommitWrite(db, p, w, id), p, s.threadId, s.runId);
    }
  }

  lemma VersionIs(existing: Option<RunState>, s: RunState, id: string)
    ensures
      var w := NextVersion(existing, s, id);
      w.Success? ==> w.value.runId == s.runId && w.value.threadId == s.threadId && w.value.checkpointId == Some(id)
  {
  }

  /** The dictionaries after a commit: run, checkpoint and index entry together. */
  function Committed(m: Mem, w: RunState, id: string): Mem {
    m.(state := m.state[w.runId := w],
       checkpoints := m.checkpoints[id := w],
       threadCheckpoints := m.threadCheckpoints[w.threadId := AddOnce(ListAt(m.threadCheckpoints, w.threadId), id)])
  }

  lemma SimCommit(m: Mem, db: Db, p: string, w: RunState, id: string)
    requires Sim(m, db, p) && SafeRunId(w.runId) && id !in ListAt(m.threadCheckpoints, w.threadId)
    ensures Sim(Committed(m, w, id), CommitWrite(db, p, w, id), p)
  {
    hide SafeRunId, Text, At, Matches, NoDuplicates;
    var m1 := m.(state := m.state[w.runId := w]);
    SetKey(m, db, p, RunKey(w.runId), Snapshot(w), m1);
    SimCheckpoint(m1, db[Text(p, RunKey(w.runId)) := Snapshot(w)], p, w, id);
  }

  lemma SimWriteCheckpoint(m: Mem, db: Db, p: string, s: RunState, newId: string)
    requires Sim(m, db, p) && Allowed(m, WriteCheckpoint(s, newId))
    ensures Sim(MemWriteCheckpoint(m, s, newId), RWriteCheckpoint(db, p, s, newId), p)
  {
    hide SafeRunId, Text, At, Matches;
    var id := ChosenId(s, newId);
    SimCheckpoint(m, db, p, s.(checkpointId := Some(id)), id);
  }

  /** The run's entry in its thread's history goes. */
  lemma SimDropHistory(m: Mem, db: Db, p: string, t: string, r: string)
    requires Sim(m, db, p)
    ensures
      var kept := Without(ListAt(m.threadRuns, t), r);
      Sim(m.(threadRuns := if t in m.threadRuns then SetList(m.threadRuns, t, kept) else m.threadRuns),
          Rewrite(db, p, ThreadRunsKey(t), Without(RList(db, p, ThreadRunsKey(t)), r)), p)
  {
    hide SafeRunId, Text, At, Matches, Rewrite, SafeList;
    var k, runs := ThreadRunsKey(t), ListAt(m.threadRuns, t);
    ReadKey(m, db, p, k);
    var kept := Without(runs, r);
    ListsSafe(m, t);
    SafeListWithout(runs, r);
    RewriteKey(m, db, p, k, kept,
        m.(threadRuns := if t in m.threadRuns then SetList(m.threadRuns, t, kept) else m.threadRuns));
  }

  lemma SimDelete(m: Mem, db: Db, p: string, r: string)
    requires Sim(m, db, p) && SafeRunId(r)
    ensures Sim(MemDelete(m, r), RDelete(db, p, r), p)
  {
    hide SafeRunId, Text, At, Matches, Rewrite, SafeList, Without;
    ReadKey(m, db, p, RunKey(r));
    var m1 := m.(state := m.state - {r});
    var db1 := db - {Text(p, RunKey(r))};
    DeleteKey(m, db, p, RunKey(r), m1);
    if r in m.state {
      var t := m.state[r].threadId;
      SimDropHistory(m1, db1, p, t, r);
      SimClearActive(m1.(threadRuns := MemDelete(m, r).threadRuns),
                     Rewrite(db1, p, ThreadRunsKey(t), Without(RList(db1, p, ThreadRunsKey(t)), r)), p, t, r);
    } else {
      assert m1 == m;
    }
  }

  lemma SimActive(m: Mem, db: Db, p: string, t: string)
    requires Sim(m, db, p)
    ensures MemActive(m, t).1 == RActive(db, p, t).1 && Sim(MemActive(m, t).0, RActive(db, p, t).0, p)
  {
    hide SafeRunId, Text, At, Matches;
    var k := ThreadActiveKey(t);
    ReadKey(m, db, p, k);
    if t in m.threadActive {
      ReadKey(m, db, p, RunKey(m.threadActive[t]));
      if m.threadActive[t] !in m.state {
        DeleteKey(m, db, p, k, m.(threadActive := m.threadActive - {t}));
      }
    }
  }

  lemma SimListRuns(m: Mem, db: Db, p: string, t: string)
    requires Sim(m, db, p)
    ensures MemListRuns(m, t).1 == RListRuns(db, p, t).1 && Sim(MemListRuns(m, t).0, RListRuns(db, p, t).0, p)
  {
    hide SafeRunId, Text, At, Matches, Rewrite, Keep, Present, Unique, NoDuplicates;
    ListsSafe(m, t);
    var k, runs := ThreadRunsKey(t), ListAt(m.threadRuns, t);
    ReadKey(m, db, p, k);
    UniqueIsIdentity(runs);
    PresentIsKeep(m, db, p, runs);
    KeepLength(runs, m.state.Keys);
    SafeListKept(runs, m.state.Keys);
    var valid := Keep(runs, m.state.Keys);
    if valid != runs {
      RewriteKey(m, db, p, k, valid, m.(threadRuns := SetList(m.threadRuns, t, valid)));
    }
  }

  lemma SimSetActive(m: Mem, db: Db, p: string, t: string, r: string)
    requires Sim(m, db, p) && SafeRunId(r)
    ensures Sim(MemSetActive(m, t, r), RSetActive(db, p, t, r), p)
  {
    hide SafeRunId, Text, At, Matches, RRecordRun;
    SimRecordRun(m, db, p, t, r);
    SetKey(MemRecordRun(m, t, r), RRecordRun(db, p, t, r), p, ThreadActiveKey(t), Plain(r), MemSetActive(m, t, r));
  }

  lemma SimClearActive(m: Mem, db: Db, p: string, t: string, r: string)
    requires Sim(m, db, p)
    ensures Sim(MemClearActive(m, t, r), RClearActive(db, p, t, r), p)
  {
    hide SafeRunId, Text, At, Matches;
    var k := ThreadActiveKey(t);
    ReadKey(m, db, p, k);
    if t in m.threadActive && m.threadActive[t] == r {
      DeleteKey(m, db, p, k, m.(threadActive := m.threadActive - {t}));
    }
  }

  /** Every operation keeps the relation and replies alike. */
  lemma OperationRefines(m: Mem, db: Db, p: string, op: Op)
    requires Sim(m, db, p) && Allowed(m, op)
    ensures MemApply(m, op).1 == RedisApply(db, p, op).1
    ensures Sim(MemApply(m, op).0, RedisApply(db, p, op).0, p)
  {
    hide SafeRunId, Text, At, Matches, MemPut, RPut, MemDelete, RDelete, MemWriteCheckpoint, RWriteCheckpoint,
      MemActive, RActive, MemListRuns, RListRuns, MemSetActive, RSetActive, MemClearActive, RClearActive;
    match op
    case Put(s, n) => SimPut(m, db, p, s, n);
    case GetRun(r) => ReadKey(m, db, p, RunKey(r));
    case Delete(r) => SimDelete(m, db, p, r);
    case WriteCheckpoint(s, n) => SimWriteCheckpoint(m, db, p, s, n);
    case GetCheckpoint(c) => ReadKey(m, db, p, CheckpointKey(c));
    case LatestCheckpoint(t) =>
      ReadKey(m, db, p, ThreadCheckpointsKey(t));
      var ids := ListAt(m.threadCheckpoints, t);
      if ids != [] {
        ReadKey(m, db, p, CheckpointKey(ids[|ids| - 1]));
      }
    case ListCheckpoints(t) =>
      ReadKey(m, db, p, ThreadCheckpointsKey(t));
      SnapshotsAgree(m, db, p, ListAt(m.threadCheckpoints, t));
    case ActiveRun(t) => SimActive(m, db, p, t);
    case LatestRun(t) => SimListRuns(m, db, p, t);
    case ListRuns(t) => SimListRuns(m, db, p, t);
    case SetActive(t, r) => SimSetActive(m, db, p, t, r);
    case ClearActive(t, r) => SimClearActive(m, db, p, t, r);
  }

  // ---- whole runs ----

  function MemReplies(m: Mem, ops: seq<Op>): seq<Reply>
    decreases |ops|
  {
    if ops == [] then [] else [MemApply(m, ops[0]).1] + MemReplies(MemApply(m, ops[0]).0, ops[1..])
  }

  function RedisReplies(db: Db, p: string, ops: seq<Op>): seq<Reply>
    decreases |ops|
  {
    if ops == [] then [] else [RedisApply(db, p, ops[0]).1] + RedisReplies(RedisApply(db, p, ops[0]).0, p, ops[1..])
  }

  ghost predicate AllAllowed(m: Mem, ops: seq<Op>)
    decreases |ops|
  {
    ops != [] ==> Allowed(m, ops[0]) && AllAllowed(MemApply(m, ops[0]).0, ops[1..])
  }

  /** Main result: the two stores answer every sequence of operations alike. */
  lemma {:induction false} RedisRefinesMemory(m: Mem, db: Db, p: string, ops: seq<Op>)
    requires Sim(m, db, p) && AllAllowed(m, ops)
    ensures MemReplies(m, ops) == RedisReplies(db, p, ops)
    decreases |ops|
  {
    if ops != [] {
      OperationRefines(m, db, p, ops[0]);
      RedisRefinesMemory(MemApply(m, ops[0]).0, RedisApply(db, p, ops[0]).0, p, ops[1..]);
    }
  }

  /** Fresh stores are related. */
  lemma FreshStoresRelated(p: string)
    ensures Sim(EMPTY, map[], p)
  {
  }

  /** From empty stores: every sequence of operations gets the same replies from both. */
  lemma EmptyStoresAgree(p: string, ops: seq<Op>)
    requires AllAllowed(EMPTY, ops)
    ensures MemReplies(EMPTY, ops) == RedisReplies(map[], p, ops)
  {
    FreshStoresRelated(p);
    RedisRefinesMemory(EMPTY, map[], p, ops);
  }

  /** The put of these sequences is the WATCH loop with no rival in its first window: same error or same
      state, and the stores stay related. */
  lemma WatchedPutRefines(m: Mem, db: Db, p: string, s: RunState, newId: string, rivals: seq<seq<Rival>>)
    requires Sim(m, db, p) && Allowed(m, Put(s, newId)) && RETRIES < |rivals| && rivals[0] == []
    ensures
      var out := RPutAmong(db, p, s, newId, rivals);
      match MemPut(m, s, newId)
      case Success(r) => out.error.None? && out.state == r.1 && Sim(r.0, out.db, p)
      case Failure(e) => out.error == Some(e) && out.state == s && out.db == db
  {
    hide Sim, MemPut, RPut, RPutAmong, SafeRunId;
    SimPut(m, db, p, s, newId);
    UndisturbedPut(db, p, s, newId, rivals);
  }

  /** The checkpoint an operation files under an id, if it files one. */
  function Filed(m: Mem, op: Op): Option<(RunState, string)> {
    match op
    case WriteCheckpoint(s, n) => Some((s.(checkpointId := Some(ChosenId(s, n))), ChosenId(s, n)))
    case Put(s, n) => (match MemPut(m, s, n) case Success(r) => Some((r.1, ChosenId(s, n))) case Failure(_) => None)
    case _ => None
  }

  /** The proviso on checkpoint ids is exact, for a put and for a bare checkpoint write: when the id is
      already in its thread's index, Redis lists the thread's checkpoints with this one twice and the
      in-memory store once. */
  lemma RepeatedIdDiffers(m: Mem, db: Db, p: string, op: Op)
    requires Sim(m, db, p) && Filed(m, op).Some? && (op.Put? ==> SafeRunId(op.state.runId))
    requires Filed(m, op).value.1 in ListAt(m.threadCheckpoints, op.state.threadId)
    ensures
      var list := ListCheckpoints(op.state.threadId);
      var (w, id) := Filed(m, op).value;
      var here := MemApply(MemApply(m, op).0, list).1;
      here.States? && RedisApply(RedisApply(db, p, op).0, p, list).1 == States(here.list + [w])
  {
    hide SafeRunId, Text, Matches, At, CommitWrite, NextVersion, RRecordRun, RSnapshots, Snapshots, Consistent;
    var t := op.state.threadId;
    var (w, id) := Filed(m, op).value;
    var n, db1 := MemApply(m, op).0, RedisApply(db, p, op).0;
    var ids := ListAt(m.threadCheckpoints, t);
    if op.Put? {
      RepeatedPut(m, db, p, op.state, op.newId);
    } else {
      RepeatedWrite(m, db, p, op.state, op.newId);
    }
    ListedTwice(n, db1, p, ids, id, w);
  }

  /** The keys of checkpoints agree, and one index has grown by an id it held already. */
  ghost predicate Repeats(m: Mem, n: Mem, db1: Db, p: string, t: string, id: string, w: RunState) {
    && (forall c :: At(db1, p, CheckpointKey(c)) == Expected(n, CheckpointKey(c)))
    && id in n.checkpoints && n.checkpoints[id] == w
    && ListAt(n.threadCheckpoints, t) == ListAt(m.threadCheckpoints, t)
    && RList(db1, p, ThreadCheckpointsKey(t)) == ListAt(m.threadCheckpoints, t) + [id]
  }

  lemma RepeatedWrite(m: Mem, db: Db, p: string, s: RunState, newId: string)
    requires Sim(m, db, p) && ChosenId(s, newId) in ListAt(m.threadCheckpoints, s.threadId)
    ensures Repeats(m, MemWriteCheckpoint(m, s, newId), RWriteCheckpoint(db, p, s, newId), p, s.threadId,
        ChosenId(s, newId),
                    s.(checkpointId := Some(ChosenId(s, newId))))
  {
    hide SafeRunId, Text, Matches;
    var id := ChosenId(s, newId);
    var c, k := CheckpointKey(id), ThreadCheckpointsKey(s.threadId);
    var e := Snapshot(s.(checkpointId := Some(id)));
    ReadKey(m, db, p, k);
    AfterSet(db, p, c, e);
    var db1 := db[Text(p, c) := e];
    assert Safe(k) && At(db1, p, k) == At(db, p, k);
    AfterSet(db1, p, k, Ids(RList(db1, p, k) + [id]));
    forall x ensures At(RWriteCheckpoint(db, p, s, newId), p, CheckpointKey(x))
      == Expected(MemWriteCheckpoint(m, s, newId), CheckpointKey(x)) {
      ReadKey(m, db, p, CheckpointKey(x));
    }
  }

  lemma RecordRunReads(db: Db, p: string, t: string, r: string, k: Key)
    requires Safe(k) && !k.ThreadRunsKey?
    ensures At(RRecordRun(db, p, t, r), p, k) == At(db, p, k)
  {
    hide SafeRunId, Text;
    AfterSet(db, p, ThreadRunsKey(t), Ids(RList(db, p, ThreadRunsKey(t)) + [r]));
  }

  /** What an accepted put writes in both stores. */
  lemma PutsWrite(m: Mem, db: Db, p: string, s: RunState, newId: string) returns (w: RunState)
    requires Sim(m, db, p) && SafeRunId(s.runId) && MemPut(m, s, newId).Success?
    ensures w == MemPut(m, s, newId).value.1 && w.runId == s.runId && w.threadId == s.threadId
    ensures RPut(db, p, s, newId)
      == Success((RRecordRun(CommitWrite(db, p, w, ChosenId(s, newId)), p, s.threadId, s.runId), w))
    ensures MemPut(m, s, newId).value.0.checkpoints == m.checkpoints[ChosenId(s, newId) := w]
    ensures MemPut(m, s, newId).value.0.threadCheckpoints ==
      m.threadCheckpoints[s.threadId := AddOnce(ListAt(m.threadCheckpoints, s.threadId), ChosenId(s, newId))]
  {
    hide SafeRunId, Text, Matches, CommitWrite, NextVersion, Consistent, RRecordRun, At;
    ReadKey(m, db, p, RunKey(s.runId));
    VersionIs(Existing(m, s.runId), s, ChosenId(s, newId));
    w := MemPut(m, s, newId).value.1;
  }

  lemma RepeatedPut(m: Mem, db: Db, p: string, s: RunState, newId: string)
    requires Sim(m, db, p) && SafeRunId(s.runId) && MemPut(m, s, newId).Success?
    requires ChosenId(s, newId) in ListAt(m.threadCheckpoints, s.threadId)
    ensures RPut(db, p, s, newId).Success?
    ensures Repeats(m, MemPut(m, s, newId).value.0, RPut(db, p, s, newId).value.0, p, s.threadId, ChosenId(s, newId),
                    MemPut(m, s, newId).value.1)
  {
    hide SafeRunId, Text, Matches, CommitWrite, RRecordRun, At, MemPut, RPut;
    var id := ChosenId(s, newId);
    var w := PutsWrite(m, db, p, s, newId);
    CommitReads(db, p, w, id);
    var db1 := CommitWrite(db, p, w, id);
    var k := ThreadCheckpointsKey(s.threadId);
    ReadKey(m, db, p, k);
    RecordRunReads(db1, p, s.threadId, s.runId, k);
    forall x ensures At(RPut(db, p, s, newId).value.0, p, CheckpointKey(x))
      == Expected(MemPut(m, s, newId).value.0, CheckpointKey(x)) {
      ReadKey(m, db, p, CheckpointKey(x));
      RecordRunReads(db1, p, s.threadId, s.runId, CheckpointKey(x));
    }
  }

  lemma ListedTwice(n: Mem, db1: Db, p: string, ids: seq<string>, id: string, w: RunState)
    requires forall c :: At(db1, p, CheckpointKey(c)) == Expected(n, CheckpointKey(c))
    requires id in n.checkpoints && n.checkpoints[id] == w
    ensures RSnapshots(db1, p, ids + [id]) == Snapshots(n.checkpoints, ids) + [w]
  {
    hide At, RSnapshots, Snapshots;
    RSnapshotsSnoc(db1, p, ids, id);
    assert At(db1, p, CheckpointKey(id)) == Expected(n, CheckpointKey(id));
    SameSnapshots(n, db1, p, ids);
  }

  lemma {:induction false} SameSnapshots(n: Mem, db1: Db, p: string, ids: seq<string>)
    requires forall c :: At(db1, p, CheckpointKey(c)) == Expected(n, CheckpointKey(c))
    ensures RSnapshots(db1, p, ids) == Snapshots(n.checkpoints, ids)
  {
    hide At, CheckpointAt, ToSeq, RCheckpoint, Expected;
    if ids != [] {
      CheckpointAtIs(n, db1, p, ids[0]);
      SameSnapshots(n, db1, p, ids[1..]);
    }
  }
}
