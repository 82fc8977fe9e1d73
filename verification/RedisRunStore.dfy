/** The Redis run store without expiry (governai/runtime/run_store.py, lines 230-509), over one
    database of typed entries. */
module RedisRunStore {
  import opened Prelude
  import opened RunStates
  import opened RunStore
  import opened Sequences
  import opened RedisKeys

  // ---- redis commands ----

  function RGet(db: Db, p: string, runId: string): Option<RunState> {
    match At(db, p, RunKey(runId))
    case Some(Snapshot(s)) => Some(s)
    case _ => None
  }

  function RCheckpoint(db: Db, p: string, id: string): Option<RunState> {
    match At(db, p, CheckpointKey(id))
    case Some(Snapshot(s)) => Some(s)
    case _ => None
  }

  function RList(db: Db, p: string, k: Key): seq<string> {
    match At(db, p, k)
    case Some(Ids(ids)) => ids
    case _ => []
  }

  function RText(db: Db, p: string, k: Key): Option<string> {
    match At(db, p, k)
    case Some(Plain(t)) => Some(t)
    case _ => None
  }

  function RPush(db: Db, p: string, k: Key, v: string): Db {
    db[Text(p, k) := Ids(RList(db, p, k) + [v])]
  }

  /** _rewrite_list: an emptied list is a deleted key. */
  function Rewrite(db: Db, p: string, k: Key, values: seq<string>): Db {
    if values == [] then db - {Text(p, k)} else db[Text(p, k) := Ids(values)]
  }

  // ---- the operations ----

  function RRecordRun(db: Db, p: string, threadId: string, runId: string): Db {
    if runId in RList(db, p, ThreadRunsKey(threadId)) then db else RPush(db, p, ThreadRunsKey(threadId), runId)
  }

  /** The MULTI block: run snapshot, checkpoint and one index entry in a single EXEC. */
  function CommitWrite(db: Db, p: string, w: RunState, id: string): Db {
    var db1 := db[Text(p, RunKey(w.runId)) := Snapshot(w)];
    var db2 := db1[Text(p, CheckpointKey(id)) := Snapshot(w)];
    RPush(db2, p, ThreadCheckpointsKey(w.threadId), id)
  }

  /** A commit another client makes to the run key being watched. */
  datatype Rival = Rival(state: RunState, checkpointId: string)

  function ApplyRivals(db: Db, p: string, runId: string, rivals: seq<Rival>): Db
    decreases |rivals|
  {
    if rivals == [] then db
    else ApplyRivals(CommitWrite(db, p, rivals[0].state.(runId := runId), rivals[0].checkpointId), p, runId,
        rivals[1..])
  }

  /** How a put ends: the database, the caller's state object, the error if any, and the number of
      WATCH attempts made. */
  datatype PutOutcome = PutOutcome(db: Db, state: RunState, error: Option<StoreError>, attempts: nat)

  const RETRIES := 3

  /** The retry loop from some attempt on. rivals[k] are the commits that land between the WATCH and
      the EXEC of attempt k. A failed EXEC leaves the advanced epoch in the caller's state. */
  function Attempts(db: Db, p: string, s: RunState, id: string, rivals: seq<seq<Rival>>,
                    attempt: nat): (out: PutOutcome)
    requires attempt <= RETRIES < |rivals|
    ensures attempt < out.attempts <= RETRIES + 1
    decreases RETRIES - attempt
  {
    match NextVersion(RGet(db, p, s.runId), s, id)
    case Failure(e) => PutOutcome(db, s, Some(e), attempt + 1)
    case Success(w) =>
      var db1 := ApplyRivals(db, p, s.runId, rivals[attempt]);
      if rivals[attempt] == [] then PutOutcome(CommitWrite(db1, p, w, id), w, None, attempt + 1)
      else if attempt >= RETRIES then PutOutcome(db1, w, Some(RetriesExhausted), attempt + 1)
      else Attempts(db1, p, w, id, rivals, attempt + 1)
  }

  function RPutAmong(db: Db, p: string, s: RunState, newId: string, rivals: seq<seq<Rival>>): PutOutcome
    requires RETRIES < |rivals|
  {
    if !Consistent(s) then PutOutcome(db, s, Some(InvalidState), 0)
    else
      var out := Attempts(db, p, s, ChosenId(s, newId), rivals, 0);
      if out.error.Some? then out else out.(db := RRecordRun(out.db, p, s.threadId, s.runId))
  }

  /** A put that no other client disturbs. */
  function RPut(db: Db, p: string, s: RunState, newId: string): Result<(Db, RunState), StoreError> {
    if !Consistent(s) then Failure(InvalidState)
    else
      var w :- NextVersion(RGet(db, p, s.runId), s, ChosenId(s, newId));
      Success((RRecordRun(CommitWrite(db, p, w, ChosenId(s, newId)), p, s.threadId, s.runId), w))
  }

  function RDelete(db: Db, p: string, runId: string): Db {
    var s := RGet(db, p, runId);
    var db1 := db - {Text(p, RunKey(runId))};
    if s.None? then db1
    else
      var history := ThreadRunsKey(s.value.threadId);
      var db2 := Rewrite(db1, p, history, Without(RList(db1, p, history), runId));
      var active := ThreadActiveKey(s.value.threadId);
      if RText(db2, p, active) == Some(runId) then db2 - {Text(p, active)} else db2
  }

  function RWriteCheckpoint(db: Db, p: string, s: RunState, newId: string): Db {
    var id := ChosenId(s, newId);
    var db1 := db[Text(p, CheckpointKey(id)) := Snapshot(s.(checkpointId := Some(id)))];
    RPush(db1, p, ThreadCheckpointsKey(s.threadId), id)
  }

  function RLatestCheckpoint(db: Db, p: string, threadId: string): Option<RunState> {
    var ids := RList(db, p, ThreadCheckpointsKey(threadId));
    if ids == [] then None else RCheckpoint(db, p, ids[|ids| - 1])
  }

  function RSnapshots(db: Db, p: string, ids: seq<string>): seq<RunState> {
    if ids == [] then [] else ToSeq(RCheckpoint(db, p, ids[0])) + RSnapshots(db, p, ids[1..])
  }

  function RActive(db: Db, p: string, threadId: string): (Db, Option<string>) {
    var run := RText(db, p, ThreadActiveKey(threadId));
    if run.None? then (db, None)
    else if RGet(db, p, run.value).None? then (db - {Text(p, ThreadActiveKey(threadId))}, None)
    else (db, run)
  }

  /** First occurrences, in order. */
  function Unique(values: seq<string>): seq<string> {
    if values == [] then []
    else AddOnce(Unique(values[..|values| - 1]), values[|values| - 1])
  }

  function Present(db: Db, p: string, runs: seq<string>): seq<string> {
    if runs == [] then [] else Only(runs[0], RGet(db, p, runs[0]).Some?) + Present(db, p, runs[1..])
  }

  function RListRuns(db: Db, p: string, threadId: string): (Db, seq<string>) {
    var runs := RList(db, p, ThreadRunsKey(threadId));
    var valid := Present(db, p, Unique(runs));
    (if valid != runs then Rewrite(db, p, ThreadRunsKey(threadId), valid) else db, valid)
  }

  function RSetActive(db: Db, p: string, threadId: string, runId: string): Db {
    RRecordRun(db, p, threadId, runId)[Text(p, ThreadActiveKey(threadId)) := Plain(runId)]
  }

  function RClearActive(db: Db, p: string, threadId: string, runId: string): Db {
    if RText(db, p, ThreadActiveKey(threadId)) == Some(runId) then db - {Text(p, ThreadActiveKey(threadId))} else db
  }

  // ---- the retry bound ----

  lemma NextEpoch(present: Option<RunState>, s: RunState, id: string)
    ensures match NextVersion(present, s, id)
      case Failure(e) => e == StaleWrite
      case Success(w) => w.epoch <= s.epoch + 1
  {
  }

  /** Main result on retries: at most four attempts; each but the last failed on a rival's commit;
      a committed epoch exceeds the entry epoch by at most the number of attempts, so at most
      attempts - 1 epochs newer than the caller's copy are overwritten, and none when the first
      attempt commits. */
  lemma {:induction false} RetryBound(db: Db, p: string, s: RunState, id: string, rivals: seq<seq<Rival>>, attempt: nat)
    requires attempt <= RETRIES < |rivals|
    ensures
      var out := Attempts(db, p, s, id, rivals, attempt);
      && attempt + 1 <= out.attempts <= 4
      && out.state.epoch <= s.epoch + (out.attempts - attempt)
      && (forall k | attempt <= k < out.attempts - 1 :: rivals[k] != [])
      && (out.error.None? ==> rivals[out.attempts - 1] == [])
      && (out.error == Some(RetriesExhausted) <==> out.attempts == 4 && out.error.Some? && !out.error.value.StaleWrite?)
    decreases RETRIES - attempt
  {
    hide CommitWrite, RGet, Text, ApplyRivals, NextVersion;
    NextEpoch(RGet(db, p, s.runId), s, id);
    match NextVersion(RGet(db, p, s.runId), s, id)
    case Failure(_) =>
    case Success(w) =>
      if rivals[attempt] != [] && attempt < RETRIES {
        RetryBound(ApplyRivals(db, p, s.runId, rivals[attempt]), p, w, id, rivals, attempt + 1);
      }
  }

  /** The database after all the commits of windows lo, lo + 1, ..., hi - 1. */
  function Before(db: Db, p: string, runId: string, rivals: seq<seq<Rival>>, lo: nat, hi: nat): Db
    requires lo <= hi <= |rivals|
    decreases hi - lo
  {
    if lo == hi then db else Before(ApplyRivals(db, p, runId, rivals[lo]), p, runId, rivals, lo + 1, hi)
  }

  /** One attempt of a put that commits: it writes one past what it read, or loses its EXEC. */
  lemma CommittingAttempt(db: Db, p: string, s: RunState, id: string, rivals: seq<seq<Rival>>, attempt: nat)
    requires attempt <= RETRIES < |rivals|
    requires Attempts(db, p, s, id, rivals, attempt).error.None?
    ensures
      var next := NextVersion(RGet(db, p, s.runId), s, id);
      var out := Attempts(db, p, s, id, rivals, attempt);
      && next.Success? && next.value.runId == s.runId
      && (if rivals[attempt] == []
          then out == PutOutcome(CommitWrite(db, p, next.value, id), next.value, None, attempt + 1)
          else
            && attempt < RETRIES
            && out == Attempts(ApplyRivals(db, p, s.runId, rivals[attempt]), p, next.value, id, rivals, attempt + 1))
      && next.value.epoch == 1 + (match RGet(db, p, s.runId) case Some(x) => x.epoch case None => 0)
  {
    hide CommitWrite, RGet, Text;
  }

  /** A put that commits extends what the run key held when its last attempt began: its epoch is one
      more, and the write is the single MULTI block. */
  lemma {:induction false} CommitExtendsStore(db: Db, p: string, s: RunState, id: string, rivals: seq<seq<Rival>>,
                                              attempt: nat)
    requires attempt <= RETRIES < |rivals|
    requires Attempts(db, p, s, id, rivals, attempt).error.None?
    ensures
      var out := Attempts(db, p, s, id, rivals, attempt);
      var base := Before(db, p, s.runId, rivals, attempt, out.attempts - 1);
      && out.db == CommitWrite(base, p, out.state, id)
      && out.state.epoch == 1 + (match RGet(base, p, s.runId) case Some(x) => x.epoch case None => 0)
    decreases RETRIES - attempt
  {
    hide Attempts, NextVersion, CommitWrite, RGet, Text, ApplyRivals;
    CommittingAttempt(db, p, s, id, rivals, attempt);
    var w := NextVersion(RGet(db, p, s.runId), s, id).value;
    var out := Attempts(db, p, s, id, rivals, attempt);
    if rivals[attempt] != [] {
      var db1 := ApplyRivals(db, p, s.runId, rivals[attempt]);
      CommitExtendsStore(db1, p, w, id, rivals, attempt + 1);
      assert Before(db, p, s.runId, rivals, attempt, out.attempts - 1)
        == Before(db1, p, s.runId, rivals, attempt + 1, out.attempts - 1);
    } else {
      assert Before(db, p, s.runId, rivals, attempt, out.attempts - 1) == db;
    }
  }

  /** With no rival in the first window the put is the undisturbed one. */
  lemma UndisturbedPut(db: Db, p: string, s: RunState, newId: string, rivals: seq<seq<Rival>>)
    requires RETRIES < |rivals| && rivals[0] == []
    ensures
      var out := RPutAmong(db, p, s, newId, rivals);
      match RPut(db, p, s, newId)
      case Success(r) => out.error.None? && out.db == r.0 && out.state == r.1
      case Failure(e) => out.error == Some(e) && out.db == db && out.state == s
  {
  }

  /** "First committer wins" fails across a retry: a caller whose copy is as new as the store, and who
      loses the first window to a rival, overwrites the rival's newer version. */
  lemma RetryOverwritesNewer(db: Db, p: string, s: RunState, id: string, rival: Rival)
    requires SafeRunId(s.runId) && RGet(db, p, s.runId).Some? && RGet(db, p, s.runId).value.epoch == s.epoch
    requires rival.state.epoch == s.epoch + 1
    ensures
      var out := Attempts(db, p, s, id, [[rival], [], [], []], 0);
      && RGet(ApplyRivals(db, p, s.runId, [rival]), p, s.runId) == Some(rival.state.(runId := s.runId))
      && out.error.None? && out.attempts == 2 && out.state.epoch == s.epoch + 2
  {
    hide CommitWrite, Text, SafeRunId;
    var rivals: seq<seq<Rival>> := [[rival], [], [], []];
    var theirs := rival.state.(runId := s.runId);
    var db1 := CommitWrite(db, p, theirs, rival.checkpointId);
    OneRival(db, p, s.runId, rival);
    CommitRuns(db, p, theirs, rival.checkpointId, s.runId);
    var w := NextVersion(RGet(db, p, s.runId), s, id).value;
    assert NextVersion(RGet(db1, p, s.runId), w, id).Success?;
    assert rivals[0] == [rival] && rivals[1] == [];
    assert Attempts(db1, p, w, id, rivals, 1).error.None?;
  }

  lemma OneRival(db: Db, p: string, runId: string, rival: Rival)
    ensures ApplyRivals(db, p, runId, [rival]) == CommitWrite(db, p, rival.state.(runId := runId), rival.checkpointId)
  {
    hide CommitWrite;
    assert [rival][1..] == [];
    var db1 := CommitWrite(db, p, rival.state.(runId := runId), rival.checkpointId);
    assert ApplyRivals(db1, p, runId, []) == db1;
  }

  /** After a commit: the run, its checkpoint and exactly one more index entry, nothing else. */
  lemma CommitReads(db: Db, p: string, w: RunState, id: string)
    requires SafeRunId(w.runId)
    ensures
      var db' := CommitWrite(db, p, w, id);
      forall l: Key | Safe(l) :: At(db', p, l) ==
        if l == RunKey(w.runId) || l == CheckpointKey(id) then Some(Snapshot(w))
        else if l == ThreadCheckpointsKey(w.threadId) then Some(Ids(RList(db, p, l) + [id]))
        else At(db, p, l)
  {
    var db1 := db[Text(p, RunKey(w.runId)) := Snapshot(w)];
    var db2 := db1[Text(p, CheckpointKey(id)) := Snapshot(w)];
    AfterSet(db, p, RunKey(w.runId), Snapshot(w));
    AfterSet(db1, p, CheckpointKey(id), Snapshot(w));
    var k := ThreadCheckpointsKey(w.threadId);
    AfterSet(db2, p, k, Ids(RList(db2, p, k) + [id]));
    assert Safe(k) && At(db2, p, k) == At(db, p, k);
  }

  /** What a commit changes of the runs. */
  lemma CommitRuns(db: Db, p: string, w: RunState, id: string, runId: string)
    requires SafeRunId(w.runId) && SafeRunId(runId)
    ensures RGet(CommitWrite(db, p, w, id), p, runId) == if runId == w.runId then Some(w) else RGet(db, p, runId)
  {
    hide SafeRunId, Text, CommitWrite, At;
    CommitReads(db, p, w, id);
    assert Safe(RunKey(runId));
  }

  // ---- list lemmas for the loops ----

  lemma {:induction false} RSnapshotsSnoc(db: Db, p: string, ids: seq<string>, id: string)
    ensures RSnapshots(db, p, ids + [id]) == RSnapshots(db, p, ids) + ToSeq(RCheckpoint(db, p, id))
  {
    hide RCheckpoint, ToSeq;
    if ids == [] {
      assert [] + [id] == [id];
    } else {
      assert (ids + [id])[1..] == ids[1..] + [id];
      RSnapshotsSnoc(db, p, ids[1..], id);
    }
  }

  lemma {:induction false} PresentSnoc(db: Db, p: string, runs: seq<string>, r: string)
    ensures Present(db, p, runs + [r]) == Present(db, p, runs) + Only(r, RGet(db, p, r).Some?)
  {
    hide RGet, Only;
    if runs == [] {
      assert [] + [r] == [r];
    } else {
      assert (runs + [r])[1..] == runs[1..] + [r];
      PresentSnoc(db, p, runs[1..], r);
    }
  }

  // ---- the store object ----

  class RedisRunStore {
    const prefix: string
    /** The database behind the injected client. */
    var db: Db

    constructor (prefix: string, db: Db)
      ensures this.prefix == prefix && this.db == db
    {
      this.prefix := prefix;
      this.db := db;
    }

    method RewriteList(k: Key, values: seq<string>)
      modifies this
      ensures db == Rewrite(old(db), prefix, k, values)
    {
      hide Text;
      db := db - {Text(prefix, k)};
      for i := 0 to |values|
        invariant db == Rewrite(old(db), prefix, k, values[..i])
      {
        assert values[..i] + [values[i]] == values[..i + 1];
        db := RPush(db, prefix, k, values[i]);
      }
      assert values[..|values|] == values;
    }

    method RecordThreadRun(threadId: string, runId: string)
      modifies this
      ensures db == RRecordRun(old(db), prefix, threadId, runId)
    {
      var existing := RList(db, prefix, ThreadRunsKey(threadId));
      if runId !in existing {
        db := RPush(db, prefix, ThreadRunsKey(threadId), runId);
      }
    }

    /** WATCH, GET, MULTI, EXEC with bounded retry, among the commits of other clients. */
    method Put(s: RunState, newId: string, rivals: seq<seq<Rival>>)
      returns (state: RunState, error: Option<StoreError>, ghost attempts: nat)
      requires RETRIES < |rivals|
      modifies this
      ensures PutOutcome(db, state, error, attempts) == RPutAmong(old(db), prefix, s, newId, rivals)
    {
      hide Text;
      state := s;
      attempts := 0;
      if !Consistent(s) {
        error := Some(InvalidState);
        return;
      }
      var id := ChosenId(s, newId);
      var attempt := 0;
      while true
        invariant attempt <= RETRIES && state.runId == s.runId && state.threadId == s.threadId
        invariant Attempts(db, prefix, state, id, rivals, attempt) == Attempts(old(db), prefix, s, id, rivals, 0)
        decreases RETRIES - attempt
      {
        attempts := attempt + 1;
        var next := NextVersion(RGet(db, prefix, state.runId), state, id);
        if next.Failure? {
          error := Some(next.error);
          return;
        }
        db := ApplyRivals(db, prefix, state.runId, rivals[attempt]);
        state := next.value;
        if rivals[attempt] == [] {
          db := CommitWrite(db, prefix, state, id);
          break;
        }
        if attempt >= RETRIES {
          error := Some(RetriesExhausted);
          return;
        }
        attempt := attempt + 1;
      }
      error := None;
      RecordThreadRun(s.threadId, s.runId);
    }

    method Delete(runId: string)
      modifies this
      ensures db == RDelete(old(db), prefix, runId)
    {
      hide Text;
      var s := RGet(db, prefix, runId);
      db := db - {Text(prefix, RunKey(runId))};
      if s.None? {
        return;
      }
      var history := ThreadRunsKey(s.value.threadId);
      var raw := RList(db, prefix, history);
      var filtered: seq<string> := [];
      for i := 0 to |raw|
        invariant filtered == Without(raw[..i], runId)
        invariant db == old(db) - {Text(prefix, RunKey(runId))}
      {
        assert raw[..i + 1] == raw[..i] + [raw[i]];
        WithoutSnoc(raw[..i], raw[i], runId);
        if raw[i] != runId {
          filtered := filtered + [raw[i]];
        }
      }
      assert raw[..|raw|] == raw;
      RewriteList(history, filtered);
      var active := ThreadActiveKey(s.value.threadId);
      if RText(db, prefix, active) == Some(runId) {
        db := db - {Text(prefix, active)};
      }
    }

    method WriteCheckpoint(s: RunState, newId: string) returns (id: string)
      modifies this
      ensures id == ChosenId(s, newId) && db == RWriteCheckpoint(old(db), prefix, s, newId)
    {
      id := ChosenId(s, newId);
      db := db[Text(prefix, CheckpointKey(id)) := Snapshot(s.(checkpointId := Some(id)))];
      db := RPush(db, prefix, ThreadCheckpointsKey(s.threadId), id);
    }

    method ListCheckpoints(threadId: string) returns (out: seq<RunState>)
      ensures out == RSnapshots(db, prefix, RList(db, prefix, ThreadCheckpointsKey(threadId)))
    {
      hide Text;
      var ids := RList(db, prefix, ThreadCheckpointsKey(threadId));
      out := [];
      for i := 0 to |ids|
        invariant out == RSnapshots(db, prefix, ids[..i])
      {
        assert ids[..i + 1] == ids[..i] + [ids[i]];
        RSnapshotsSnoc(db, prefix, ids[..i], ids[i]);
        var snapshot := RCheckpoint(db, prefix, ids[i]);
        if snapshot.Some? {
          out := out + [snapshot.value];
        }
      }
      assert ids[..|ids|] == ids;
    }

    method GetActiveRunId(threadId: string) returns (r: Option<string>)
      modifies this
      ensures (db, r) == RActive(old(db), prefix, threadId)
    {
      r := RText(db, prefix, ThreadActiveKey(threadId));
      if r.Some? && RGet(db, prefix, r.value).None? {
        db := db - {Text(prefix, ThreadActiveKey(threadId))};
        r := None;
      }
    }

    method ListRunIds(threadId: string) returns (valid: seq<string>)
      modifies this
      ensures (db, valid) == RListRuns(old(db), prefix, threadId)
    {
      hide Text;
      var raw := RList(db, prefix, ThreadRunsKey(threadId));
      var unique: seq<string> := [];
      for i := 0 to |raw|
        invariant unique == Unique(raw[..i]) && db == old(db)
      {
        assert raw[..i + 1][..i] == raw[..i];
        if raw[i] !in unique {
          unique := unique + [raw[i]];
        }
      }
      assert raw[..|raw|] == raw;
      valid := [];
      for i := 0 to |unique|
        invariant valid == Present(db, prefix, unique[..i]) && db == old(db)
      {
        assert unique[..i + 1] == unique[..i] + [unique[i]];
        PresentSnoc(db, prefix, unique[..i], unique[i]);
        if RGet(db, prefix, unique[i]).Some? {
          valid := valid + [unique[i]];
        }
      }
      assert unique[..|unique|] == unique;
      if valid != raw {
        RewriteList(ThreadRunsKey(threadId), valid);
      }
    }

    method SetActiveRunId(threadId: string, runId: string)
      modifies this
      ensures db == RSetActive(old(db), prefix, threadId, runId)
    {
      RecordThreadRun(threadId, runId);
      db := db[Text(prefix, ThreadActiveKey(threadId)) := Plain(runId)];
    }

    method ClearActiveRunId(threadId: string, runId: string)
      modifies this
      ensures db == RClearActive(old(db), prefix, threadId, runId)
    {
      if RText(db, prefix, ThreadActiveKey(threadId)) == Some(runId) {
        db := db - {Text(prefix, ThreadActiveKey(threadId))};
      }
    }
  }
}
