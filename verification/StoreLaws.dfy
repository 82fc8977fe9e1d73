/** What each call on the in-memory run store does, told by reading the store before and after it. */
module StoreLaws {
  import opened Prelude
  import opened RunStates
  import opened RunStore
  import opened Sequences

  /** A thread's list; one that is not there is empty. */
  function Listed(lists: map<string, seq<string>>, thread: string): seq<string> {
    if thread in lists then lists[thread] else []
  }

  /** One thread's list gains an entry, unless it has it already; no other list changes. */
  ghost predicate Gains(before: map<string, seq<string>>, after: map<string, seq<string>>, thread: string, v: string) {
    forall t :: Listed(after, t) ==
      if t == thread && v !in Listed(before, t) then Listed(before, t) + [v] else Listed(before, t)
  }

  /** A state that waits for an answer or an approval names the request or the step. */
  predicate Wellformed(s: RunState) {
    && !(s.status == WAITING_INTERRUPT && s.pendingInterruptId == None)
    && !(s.status == WAITING_APPROVAL && s.pendingApproval == None)
  }

  /** The id a checkpoint is written under: the caller's own, if it is a text that is not empty. */
  function IdFor(s: RunState, newId: string): string {
    match s.checkpointId
    case Some(id) => if id == "" then newId else id
    case None => newId
  }

  lemma AddedGains(lists: map<string, seq<string>>, thread: string, v: string)
    ensures Gains(lists, lists[thread := AddOnce(ListAt(lists, thread), v)], thread, v)
  {
  }

  lemma PutIs(m: Mem, s: RunState, newId: string)
    requires MemPut(m, s, newId).Success?
    ensures
      var (n, w) := MemPut(m, s, newId).value;
      n == Mem(m.state[s.runId := w], m.checkpoints[IdFor(s, newId) := w],
          m.threadCheckpoints[s.threadId := AddOnce(ListAt(m.threadCheckpoints, s.threadId), IdFor(s, newId))],
          m.threadRuns[s.threadId := AddOnce(ListAt(m.threadRuns, s.threadId), s.runId)], m.threadActive)
  {
    hide AddOnce, ListAt, Consistent;
  }

  /** put: refused for a malformed state, and for an epoch below the stored one; otherwise the run and a
      checkpoint are written with the epoch one past the stored one, and both are listed for the thread. */
  lemma PutTells(m: Mem, s: RunState, newId: string)
    ensures
      var stored := if s.runId in m.state then m.state[s.runId].epoch else 0;
      if !Wellformed(s) then MemPut(m, s, newId) == Failure(InvalidState)
      else if s.epoch < stored then MemPut(m, s, newId) == Failure(StaleWrite)
      else
        && MemPut(m, s, newId).Success?
        && var (n, w) := MemPut(m, s, newId).value;
           var id := IdFor(s, newId);
           && w == s.(epoch := stored + 1, checkpointId := Some(id))
           && n.state == m.state[s.runId := w] && n.checkpoints == m.checkpoints[id := w]
           && n.threadActive == m.threadActive
           && Gains(m.threadCheckpoints, n.threadCheckpoints, s.threadId, id)
           && Gains(m.threadRuns, n.threadRuns, s.threadId, s.runId)
  {
    hide Gains, AddOnce, ListAt;
    AddedGains(m.threadCheckpoints, s.threadId, IdFor(s, newId));
    AddedGains(m.threadRuns, s.threadId, s.runId);
    if MemPut(m, s, newId).Success? {
      PutIs(m, s, newId);
    }
  }

  /** delete: the run goes from its thread's history and, if it is the active one, from there; its
      checkpoints stay. */
  lemma DeleteTells(m: Mem, runId: string)
    ensures
      var n := MemDelete(m, runId);
      && n.checkpoints == m.checkpoints && n.threadCheckpoints == m.threadCheckpoints
      && (runId !in m.state ==> n == m)
      && (runId in m.state ==>
            var thread := m.state[runId].threadId;
            && n.state == m.state - {runId}
            && (forall t :: t != thread ==> Listed(n.threadRuns, t) == Listed(m.threadRuns, t))
            && (forall r :: r in Listed(n.threadRuns, thread) <==> r in Listed(m.threadRuns, thread) && r != runId)
            && (forall t :: t in n.threadActive <==>
                  t in m.threadActive && !(t == thread && m.threadActive[t] == runId))
            && (forall t | t in n.threadActive :: n.threadActive[t] == m.threadActive[t]))
  {
  }

  /** What of a history is left keeps its order. */
  lemma {:induction false} WithoutInOrder(values: seq<string>, v: string, i: nat)
    requires i < |values| && values[i] != v
    ensures |Without(values[..i], v)| < |Without(values, v)|
      && Without(values, v)[|Without(values[..i], v)|] == values[i]
  {
    if i > 0 {
      WithoutInOrder(values[1..], v, i - 1);
      assert values[..i][1..] == values[1..][..i - 1];
    }
  }

  /** get_active_run_id: the thread's run if it is stored; an entry for one that is not is dropped. */
  lemma ActiveTells(m: Mem, thread: string)
    ensures
      var (n, run) := MemActive(m, thread);
      if thread in m.threadActive && m.threadActive[thread] in m.state
      then run == Some(m.threadActive[thread]) && n == m
      else run == None && n == m.(threadActive := m.threadActive - {thread})
  {
    if thread !in m.threadActive {
      assert m.threadActive - {thread} == m.threadActive;
    }
  }

  /** list_run_ids: the stored runs of the thread's history in order; the others are dropped from it. */
  lemma ListTells(m: Mem, thread: string)
    ensures
      var (n, runs) := MemListRuns(m, thread);
      && runs == Keep(Listed(m.threadRuns, thread), m.state.Keys)
      && (forall r :: r in runs <==> r in Listed(m.threadRuns, thread) && r in m.state)
      && (forall t :: Listed(n.threadRuns, t) == if t == thread then runs else Listed(m.threadRuns, t))
      && n == m.(threadRuns := n.threadRuns)
  {
    KeepLength(Listed(m.threadRuns, thread), m.state.Keys);
  }

  /** activatedactive_run_id and clear_active_run_id. */
  lemma ActivationTells(m: Mem, thread: string, runId: string)
    ensures
      var activated := MemSetActive(m, thread, runId);
      && activated == m.(threadActive := m.threadActive[thread := runId], threadRuns := activated.threadRuns)
      && Gains(m.threadRuns, activated.threadRuns, thread, runId)
    ensures
      MemClearActive(m, thread, runId) ==
        if thread in m.threadActive && m.threadActive[thread] == runId
        then m.(threadActive := m.threadActive - {thread}) else m
  {
  }

  /** list_checkpoints: the checkpoints listed for a thread that are still held, in the order of the list;
      the latest is the last of the list. */
  lemma {:induction false} SnapshotsTell(checkpoints: map<string, RunState>, ids: seq<string>)
    requires forall i | i in ids :: i in checkpoints
    ensures |Snapshots(checkpoints, ids)| == |ids|
    ensures forall i | 0 <= i < |ids| :: Snapshots(checkpoints, ids)[i] == checkpoints[ids[i]]
  {
    if ids != [] {
      assert ids == [ids[0]] + ids[1..];
      SnapshotsTell(checkpoints, ids[1..]);
    }
  }

  lemma {:induction false} SnapshotsSkip(checkpoints: map<string, RunState>, ids: seq<string>)
    ensures Snapshots(checkpoints, ids) == Snapshots(checkpoints, Keep(ids, checkpoints.Keys))
    ensures forall i | i in Keep(ids, checkpoints.Keys) :: i in checkpoints
  {
    if ids != [] {
      SnapshotsSkip(checkpoints, ids[1..]);
      var k := Keep(ids[1..], checkpoints.Keys);
      assert ([ids[0]] + k)[1..] == k;
    }
  }

  lemma LatestTells(m: Mem, thread: string)
    ensures
      var ids := Listed(m.threadCheckpoints, thread);
      MemLatestCheckpoint(m, thread) ==
        if ids != [] && ids[|ids| - 1] in m.checkpoints then Some(m.checkpoints[ids[|ids| - 1]]) else None
  {
  }

  /** Whatever is put is what is read, under its run id and under its checkpoint id, and it is the thread's
      latest checkpoint when its id is new to the thread. */
  lemma PutReads(m: Mem, s: RunState, newId: string)
    requires MemPut(m, s, newId).Success? && IdFor(s, newId) !in Listed(m.threadCheckpoints, s.threadId)
    ensures
      var (n, w) := MemPut(m, s, newId).value;
      && n.state[s.runId] == w && MemCheckpoint(n, IdFor(s, newId)) == Some(w)
      && MemLatestCheckpoint(n, s.threadId) == Some(w) && MemListRuns(n, s.threadId).1 != []
  {
    hide MemPut, MemListRuns, MemLatestCheckpoint;
    PutTells(m, s, newId);
    var n := MemPut(m, s, newId).value.0;
    LatestTells(n, s.threadId);
    ListTells(n, s.threadId);
    assert s.runId in Listed(n.threadRuns, s.threadId);
  }
}
