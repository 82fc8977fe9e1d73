/** The in-memory run store (governai/runtime/run_store.py, lines 93-227): an epoch compare-and-set
    with checkpoint, thread and active-run indexes. */
module RunStore {
  import opened Prelude
  import opened RunStates
  import opened Sequences

  datatype StoreError = InvalidState | StaleWrite | RetriesExhausted

  /** The five dictionaries of the store. */
  datatype Mem = Mem(
    state: map<string, RunState>,
    checkpoints: map<string, RunState>,
    threadCheckpoints: map<string, seq<string>>,
    threadRuns: map<string, seq<string>>,
    threadActive: map<string, string>)

  const EMPTY := Mem(map[], map[], map[], map[], map[])

  function ListAt(m: map<string, seq<string>>, key: string): seq<string> {
    if key in m then m[key] else []
  }

  function SetList(m: map<string, seq<string>>, key: string, values: seq<string>): map<string, seq<string>> {
    if values == [] then m - {key} else m[key := values]
  }

  // ---- the operations as functions on the dictionaries ----

  function Existing(m: Mem, runId: string): Option<RunState> {
    if runId in m.state then Some(m.state[runId]) else None
  }

  /** The epoch check and assignment common to both stores: the state to write, or a refusal. */
  function NextVersion(existing: Option<RunState>, s: RunState, checkpointId: string): Result<RunState, StoreError> {
    if existing.Some? && existing.value.epoch > s.epoch then Failure(StaleWrite)
    else Success(s.(epoch := (if existing.Some? then existing.value.epoch else 0) + 1,
        checkpointId := Some(checkpointId)))
  }

  function MemWriteCheckpoint(m: Mem, s: RunState, newId: string): Mem {
    var id := ChosenId(s, newId);
    m.(checkpoints := m.checkpoints[id := s.(checkpointId := Some(id))],
       threadCheckpoints := m.threadCheckpoints[s.threadId := AddOnce(ListAt(m.threadCheckpoints, s.threadId), id)])
  }

  function MemRecordRun(m: Mem, threadId: string, runId: string): Mem {
    m.(threadRuns := m.threadRuns[threadId := AddOnce(ListAt(m.threadRuns, threadId), runId)])
  }

  /** The new store and the caller's state with its epoch and checkpoint id assigned. */
  function MemPut(m: Mem, s: RunState, newId: string): Result<(Mem, RunState), StoreError> {
    if !Consistent(s) then Failure(InvalidState)
    else
      var w :- NextVersion(Existing(m, s.runId), s, ChosenId(s, newId));
      var m1 := MemWriteCheckpoint(m, w, newId);
      Success((MemRecordRun(m1.(state := m1.state[s.runId := w]), s.threadId, s.runId), w))
  }

  function MemDelete(m: Mem, runId: string): Mem {
    if runId !in m.state then m
    else
      var thread := m.state[runId].threadId;
      m.(state := m.state - {runId},
         threadRuns := if thread
           in m.threadRuns then SetList(m.threadRuns, thread, Without(m.threadRuns[thread], runId)) else m.threadRuns,
         threadActive := if thread in m.threadActive && m.threadActive[thread] == runId then m.threadActive - {thread}
           else m.threadActive)
  }

  function MemCheckpoint(m: Mem, id: string): Option<RunState> {
    if id in m.checkpoints then Some(m.checkpoints[id]) else None
  }

  function MemLatestCheckpoint(m: Mem, threadId: string): Option<RunState> {
    var ids := ListAt(m.threadCheckpoints, threadId);
    if ids == [] then None else MemCheckpoint(m, ids[|ids| - 1])
  }

  function CheckpointAt(checkpoints: map<string, RunState>, id: string): seq<RunState> {
    if id in checkpoints then [checkpoints[id]] else []
  }

  function Snapshots(checkpoints: map<string, RunState>, ids: seq<string>): seq<RunState> {
    if ids == [] then [] else CheckpointAt(checkpoints, ids[0]) + Snapshots(checkpoints, ids[1..])
  }

  /** The reply, and the store after stale entries are dropped. */
  function MemActive(m: Mem, threadId: string): (Mem, Option<string>) {
    if threadId !in m.threadActive then (m, None)
    else if m.threadActive[threadId] !in m.state then (m.(threadActive := m.threadActive - {threadId}), None)
    else (m, Some(m.threadActive[threadId]))
  }

  function MemListRuns(m: Mem, threadId: string): (Mem, seq<string>) {
    var runs := ListAt(m.threadRuns, threadId);
    var valid := Keep(runs, m.state.Keys);
    if |valid| != |runs| then (m.(threadRuns := SetList(m.threadRuns, threadId, valid)), valid) else (m, valid)
  }

  function MemSetActive(m: Mem, threadId: string, runId: string): Mem {
    var m1 := MemRecordRun(m, threadId, runId);
    m1.(threadActive := m1.threadActive[threadId := runId])
  }

  function MemClearActive(m: Mem, threadId: string, runId: string): Mem {
    if threadId in m.threadActive && m.threadActive[threadId] == runId
    then m.(threadActive := m.threadActive - {threadId}) else m
  }

  lemma {:induction false} SnapshotsSnoc(checkpoints: map<string, RunState>, ids: seq<string>, id: string)
    ensures Snapshots(checkpoints, ids + [id]) == Snapshots(checkpoints, ids) + CheckpointAt(checkpoints, id)
  {
    hide CheckpointAt;
    if ids == [] {
      assert [] + [id] == [id];
    } else {
      assert (ids + [id])[1..] == ids[1..] + [id];
      SnapshotsSnoc(checkpoints, ids[1..], id);
    }
  }

  // ---- the store object ----

  /** Snapshots are values, so the deep copies the source makes need no counterpart. */
  class InMemoryRunStore {
    var state: map<string, RunState>
    var checkpoints: map<string, RunState>
    var threadCheckpoints: map<string, seq<string>>
    var threadRuns: map<string, seq<string>>
    var threadActive: map<string, string>

    function View(): Mem
      reads this
    {
      Mem(state, checkpoints, threadCheckpoints, threadRuns, threadActive)
    }

    constructor ()
      ensures View() == EMPTY
    {
      state, checkpoints, threadCheckpoints, threadRuns, threadActive := map[], map[], map[], map[], map[];
    }

    method RecordThreadRun(threadId: string, runId: string)
      modifies this
      ensures View() == MemRecordRun(old(View()), threadId, runId)
    {
      var runs := ListAt(threadRuns, threadId);
      if runId !in runs {
        runs := runs + [runId];
      }
      threadRuns := threadRuns[threadId := runs];
    }

    method RemoveThreadRun(threadId: string, runId: string)
      modifies this
      ensures View() == old(View()).(threadRuns :=
        if threadId in old(threadRuns) then SetList(old(threadRuns), threadId,
            Without(old(threadRuns)[threadId], runId)) else old(threadRuns))
    {
      if threadId !in threadRuns {
        return;
      }
      var runs := threadRuns[threadId];
      var filtered: seq<string> := [];
      for i := 0 to |runs|
        invariant filtered == Without(runs[..i], runId)
        invariant View() == old(View())
      {
        assert runs[..i + 1] == runs[..i] + [runs[i]];
        WithoutSnoc(runs[..i], runs[i], runId);
        if runs[i] != runId {
          filtered := filtered + [runs[i]];
        }
      }
      assert runs[..|runs|] == runs;
      if filtered != [] {
        threadRuns := threadRuns[threadId := filtered];
      } else {
        threadRuns := threadRuns - {threadId};
      }
    }

    method WriteCheckpoint(s: RunState, newId: string) returns (id: string)
      modifies this
      ensures id == ChosenId(s, newId) && View() == MemWriteCheckpoint(old(View()), s, newId)
    {
      id := ChosenId(s, newId);
      checkpoints := checkpoints[id := s.(checkpointId := Some(id))];
      var list := ListAt(threadCheckpoints, s.threadId);
      if id !in list {
        list := list + [id];
      }
      threadCheckpoints := threadCheckpoints[s.threadId := list];
    }

    /** The caller's state comes back with its epoch and checkpoint id assigned; a refused put
        changes nothing. */
    method Put(s: RunState, newId: string) returns (r: Result<RunState, StoreError>)
      modifies this
      ensures match MemPut(old(View()), s, newId)
        case Success(p) => r == Success(p.1) && View() == p.0
        case Failure(e) => r == Failure(e) && View() == old(View())
    {
      if !Consistent(s) {
        return Failure(InvalidState);
      }
      var existing := if s.runId in state then Some(state[s.runId]) else None;
      if existing.Some? && existing.value.epoch > s.epoch {
        return Failure(StaleWrite);
      }
      var newEpoch := (if existing.Some? then existing.value.epoch else 0) + 1;
      var w := s.(epoch := newEpoch);
      var id := WriteCheckpoint(w, newId);
      w := w.(checkpointId := Some(id));
      state := state[s.runId := w];
      RecordThreadRun(s.threadId, s.runId);
      return Success(w);
    }

    method Delete(runId: string)
      modifies this
      ensures View() == MemDelete(old(View()), runId)
    {
      if runId !in state {
        return;
      }
      var thread := state[runId].threadId;
      state := state - {runId};
      RemoveThreadRun(thread, runId);
      if thread in threadActive && threadActive[thread] == runId {
        threadActive := threadActive - {thread};
      }
    }

    method ListCheckpoints(threadId: string) returns (out: seq<RunState>)
      ensures out == Snapshots(checkpoints, ListAt(threadCheckpoints, threadId))
    {
      var ids := ListAt(threadCheckpoints, threadId);
      out := [];
      for i := 0 to |ids|
        invariant out == Snapshots(checkpoints, ids[..i])
      {
        assert ids[..i + 1] == ids[..i] + [ids[i]];
        SnapshotsSnoc(checkpoints, ids[..i], ids[i]);
        if ids[i] in checkpoints {
          out := out + [checkpoints[ids[i]]];
        }
      }
      assert ids[..|ids|] == ids;
    }

    method GetActiveRunId(threadId: string) returns (r: Option<string>)
      modifies this
      ensures (View(), r) == MemActive(old(View()), threadId)
    {
      if threadId !in threadActive {
        return None;
      }
      if threadActive[threadId] !in state {
        threadActive := threadActive - {threadId};
        return None;
      }
      return Some(threadActive[threadId]);
    }

    method ListRunIds(threadId: string) returns (valid: seq<string>)
      modifies this
      ensures (View(), valid) == MemListRuns(old(View()), threadId)
    {
      var runs := ListAt(threadRuns, threadId);
      valid := [];
      for i := 0 to |runs|
        invariant valid == Keep(runs[..i], state.Keys)
        invariant View() == old(View())
      {
        assert runs[..i + 1] == runs[..i] + [runs[i]];
        KeepSnoc(runs[..i], runs[i], state.Keys);
        if runs[i] in state {
          valid := valid + [runs[i]];
        }
      }
      assert runs[..|runs|] == runs;
      if |valid| != |runs| {
        if valid != [] {
          threadRuns := threadRuns[threadId := valid];
        } else {
          threadRuns := threadRuns - {threadId};
        }
      }
    }

    method SetActiveRunId(threadId: string, runId: string)
      modifies this
      ensures View() == MemSetActive(old(View()), threadId, runId)
    {
      RecordThreadRun(threadId, runId);
      threadActive := threadActive[threadId := runId];
    }

    method ClearActiveRunId(threadId: string, runId: string)
      modifies this
      ensures View() == MemClearActive(old(View()), threadId, runId)
    {
      if threadId in threadActive && threadActive[threadId] == runId {
        threadActive := threadActive - {threadId};
      }
    }
  }
}
