/** Any number of clients interleaving the WATCH, GET and EXEC steps of RedisRunStore.put over one
    database (governai/runtime/run_store.py, lines 330-373), without expiry or delete. */
module RedisCommits {
  import opened Prelude
  import opened RunStates
  import opened RunStore
  import opened RedisKeys
  import opened RedisRunStore

  /** Where a client stands in a put. `entry` is the epoch its state had when it called put, `level` whether
      that was not ahead of the store; the state's own epoch moves with every attempt. */
  datatype Client =
    | Idle
    | Entering(state: RunState, id: string, entry: nat, attempt: nat, level: bool)
    | Watching(state: RunState, id: string, entry: nat, attempt: nat, level: bool, seen: nat)
    | Queued(state: RunState, id: string, entry: nat, attempt: nat, level: bool, seen: nat)

  /** A committed write, and the put it came from. */
  datatype Commit = Commit(state: RunState, id: string, entry: nat, attempt: nat, level: bool)

  /** `touches` counts the writes to a run key: EXEC fails when the watched key was touched.
      `log` is history only. */
  datatype System = System(db: Db, touches: map<string, nat>, clients: map<nat, Client>, log: seq<Commit>)

  datatype Step =
    | Call(client: nat, state: RunState, newId: string)
    | Watch(client: nat)
    | Read(client: nat)
    | Exec(client: nat)

  function TouchesOf(s: System, runId: string): nat {
    if runId in s.touches then s.touches[runId] else 0
  }

  function At(s: System, c: nat): Client {
    if c in s.clients then s.clients[c] else Idle
  }

  function Move(s: System, c: nat, next: Client): System {
    s.(clients := s.clients[c := next])
  }

  /** One step of one client; a step the client is not ready for changes nothing. */
  function Next(s: System, p: string, step: Step): System {
    match step
    case Call(c, st, newId) =>
      if At(s, c).Idle? && Consistent(st) then
      Move(s, c, Entering(st, ChosenId(st, newId), st.epoch, 0, st.epoch <= TouchesOf(s, st.runId))) else s
    case Watch(c) =>
      (match At(s, c)
       case Entering(st, id, entry, k, level) => Move(s, c, Watching(st, id, entry, k, level, TouchesOf(s, st.runId)))
       case _ => s)
    case Read(c) =>
      (match At(s, c)
       case Watching(st, id, entry, k, level, seen) =>
         (match NextVersion(RGet(s.db, p, st.runId), st, id)
          case Failure(_) => Move(s, c, Idle)
          case Success(w) => Move(s, c, Queued(w, id, entry, k, level, seen)))
       case _ => s)
    case Exec(c) =>
      (match At(s, c)
       case Queued(w, id, entry, k, level, seen) =>
         if TouchesOf(s, w.runId) == seen then
           System(CommitWrite(s.db, p, w, id), s.touches[w.runId := seen + 1], s.clients[c := Idle],
                  s.log + [Commit(w, id, entry, k, level)])
         else if k >= RETRIES then Move(s, c, Idle)
         else Move(s, c, Entering(w, id, entry, k + 1, level))
       case _ => s)
  }

  function Run(s: System, p: string, steps: seq<Step>): System
    decreases |steps|
  {
    if steps == [] then s else Run(Next(s, p, steps[0]), p, steps[1..])
  }

  const START := System(map[], map[], map[], [])

  // ---- the log of one run ----

  /** The commits of one run, in commit order. */
  function Of(log: seq<Commit>, runId: string): seq<Commit>
    decreases |log|
  {
    if log == [] then []
    else
      var last := log[|log| - 1];
      Of(log[..|log| - 1], runId) + (if last.state.runId == runId then [last] else [])
  }

  /** The checkpoint ids committed to one thread, in commit order. */
  function IdsOf(log: seq<Commit>, threadId: string): seq<string>
    decreases |log|
  {
    if log == [] then []
    else
      var last := log[|log| - 1];
      IdsOf(log[..|log| - 1], threadId) + (if last.state.threadId == threadId then [last.id] else [])
  }

  // ---- invariants ----

  /** The run key holds the run's last commit, the i-th of which has epoch i + 1. */
  ghost predicate RunOrdered(s: System, p: string, runId: string) {
    var mine := Of(s.log, runId);
    && TouchesOf(s, runId) == |mine|
    && (forall i | 0 <= i < |mine| :: mine[i].state.epoch == i + 1)
    && RGet(s.db, p, runId) == if mine == [] then None else Some(mine[|mine| - 1].state)
  }

  /** Each thread's index lists exactly the committed checkpoints of the thread, and each of them can
      be read under its key. Ids are taken to be fresh. */
  ghost predicate Indexed(s: System, p: string) {
    && (forall t :: RList(s.db, p, ThreadCheckpointsKey(t)) == IdsOf(s.log, t))
    && (forall i | 0 <= i < |s.log| :: RCheckpoint(s.db, p, s.log[i].id) == Some(s.log[i].state))
  }

  ghost predicate FreshIds(s: System) {
    && (forall i, j | 0 <= i < j < |s.log| :: s.log[i].id != s.log[j].id)
    && (forall c, i | c in s.clients && !s.clients[c].Idle? && 0 <= i < |s.log| :: s.clients[c].id != s.log[i].id)
    && (forall c, d | c in s.clients && d in s.clients && c != d && !s.clients[c].Idle? && !s.clients[d].Idle? ::
          s.clients[c].id != s.clients[d].id)
  }

  /** A client's epoch exceeds its entry epoch by at most the attempts begun; a queued write is one past
      what was read under the watch. A level put must find at each GET the very version its state has come
      to, or it is stale; so no commit falls between its WATCH and its GET, and each lost attempt adds one. */
  ghost predicate ClientOk(s: System, c: Client) {
    match c
    case Idle => true
    case Entering(st, _, entry, k, level) =>
      && SafeRunId(st.runId) && k <= RETRIES && st.epoch <= entry + k
      && (level ==> st.epoch == entry + k <= TouchesOf(s, st.runId))
    case Watching(st, _, entry, k, level, seen) =>
      && SafeRunId(st.runId) && k <= RETRIES && st.epoch <= entry + k && seen <= TouchesOf(s, st.runId)
      && (level ==> st.epoch == entry + k <= seen)
    case Queued(w, id, entry, k, level, seen) =>
      && SafeRunId(w.runId) && k <= RETRIES && w.epoch <= entry + k + 1 && seen <= TouchesOf(s, w.runId)
      && (seen == TouchesOf(s, w.runId) ==> w.epoch == seen + 1)
      && (level ==> w.epoch == entry + k + 1 == seen + 1)
  }

  ghost predicate Inv(s: System, p: string) {
    && (forall r | SafeRunId(r) :: RunOrdered(s, p, r))
    && Indexed(s, p)
    && FreshIds(s)
    && (forall c | c in s.clients :: ClientOk(s, s.clients[c]))
    && LogOk(s.log)
  }

  ghost predicate LogOk(log: seq<Commit>) {
    forall i | 0 <= i < |log| ::
      && SafeRunId(log[i].state.runId) && log[i].attempt <= RETRIES
         && log[i].state.epoch <= log[i].entry + log[i].attempt + 1
      && (log[i].level ==> log[i].state.epoch == log[i].entry + log[i].attempt + 1)
  }

  /** What is asked of the callers: safe run ids and fresh checkpoint ids. */
  ghost predicate Permitted(s: System, step: Step) {
    step.Call? ==>
      var id := ChosenId(step.state, step.newId);
      && SafeRunId(step.state.runId)
      && (forall i | 0 <= i < |s.log| :: s.log[i].id != id)
      && (forall c | c in s.clients && !s.clients[c].Idle? :: s.clients[c].id != id)
  }

  ghost predicate AllPermitted(s: System, p: string, steps: seq<Step>)
    decreases |steps|
  {
    steps != [] ==> Permitted(s, steps[0]) && AllPermitted(Next(s, p, steps[0]), p, steps[1..])
  }

  // ---- one step ----

  lemma SameTouches(s: System, n: System, c: Client)
    requires ClientOk(s, c) && n.touches == s.touches
    ensures ClientOk(n, c)
  {
    hide SafeRunId;
  }

  lemma MoveFresh(s: System, c: nat, next: Client)
    requires FreshIds(s)
    requires next.Idle? || (forall i | 0 <= i < |s.log| :: s.log[i].id != next.id)
    requires next.Idle? || (forall d | d in s.clients && d != c && !s.clients[d].Idle? :: s.clients[d].id != next.id)
    ensures FreshIds(Move(s, c, next))
  {
  }

  /** Moving one client on, with its own id or a fresh one, touches nothing else. */
  lemma MoveKeeps(s: System, p: string, c: nat, next: Client)
    requires Inv(s, p) && ClientOk(s, next)
    requires next.Idle? || (forall i | 0 <= i < |s.log| :: s.log[i].id != next.id)
    requires next.Idle? || (forall d | d in s.clients && d != c && !s.clients[d].Idle? :: s.clients[d].id != next.id)
    ensures Inv(Move(s, c, next), p)
  {
    hide SafeRunId, Text, RGet, RList, RCheckpoint, CommitWrite, Of, IdsOf, ClientOk, FreshIds, LogOk;
    var n := Move(s, c, next);
    forall r | SafeRunId(r) ensures RunOrdered(n, p, r) {
      assert RunOrdered(s, p, r);
    }
    MoveFresh(s, c, next);
    forall d | d in n.clients ensures ClientOk(n, n.clients[d]) {
      SameTouches(s, n, n.clients[d]);
    }
  }

  /** What a GET under the watch leads to. */
  lemma ReadOk(s: System, p: string, st: RunState, id: string, entry: nat, k: nat, level: bool, seen: nat)
    requires ClientOk(s, Watching(st, id, entry, k, level, seen)) && RunOrdered(s, p, st.runId)
    requires NextVersion(RGet(s.db, p, st.runId), st, id).Success?
    ensures
      var w := NextVersion(RGet(s.db, p, st.runId), st, id).value;
      ClientOk(s, Queued(w, id, entry, k, level, seen))
  {
    hide SafeRunId, RGet, Text;
  }

  lemma CallOk(s: System, st: RunState, id: string)
    requires SafeRunId(st.runId)
    ensures ClientOk(s, Entering(st, id, st.epoch, 0, st.epoch <= TouchesOf(s, st.runId)))
  {
    hide SafeRunId;
  }

  lemma WatchOk(s: System, st: RunState, id: string, entry: nat, k: nat, level: bool)
    requires ClientOk(s, Entering(st, id, entry, k, level))
    ensures ClientOk(s, Watching(st, id, entry, k, level, TouchesOf(s, st.runId)))
  {
    hide SafeRunId;
  }

  /** A failed EXEC: the key was written since the WATCH. */
  lemma LostOk(s: System, w: RunState, id: string, entry: nat, k: nat, level: bool, seen: nat)
    requires ClientOk(s, Queued(w, id, entry, k, level, seen)) && TouchesOf(s, w.runId) != seen && k < RETRIES
    ensures ClientOk(s, Entering(w, id, entry, k + 1, level))
  {
    hide SafeRunId;
  }

  lemma ClientStep(s: System, p: string, step: Step)
    requires Inv(s, p) && Permitted(s, step)
    requires !(step.Exec? && At(s, step.client).Queued?
        && TouchesOf(s, At(s, step.client).state.runId) == At(s, step.client).seen)
    ensures Inv(Next(s, p, step), p)
  {
    hide SafeRunId, Text, RGet, CommitWrite, Indexed, Move, ClientOk, LogOk, NextVersion;
    var c := step.client;
    var at := At(s, c);
    assert c in s.clients ==> ClientOk(s, s.clients[c]);
    MoveIdle(s, p, c);
    match (step, at)
    case (Call(_, st, newId), Idle) =>
      CallOk(s, st, ChosenId(st, newId));
      if Consistent(st) {
        MoveKeeps(s, p, c, Entering(st, ChosenId(st, newId), st.epoch, 0, st.epoch <= TouchesOf(s, st.runId)));
      }
    case (Watch(_), Entering(st, id, entry, k, level)) =>
      WatchOk(s, st, id, entry, k, level);
      MoveKeeps(s, p, c, Watching(st, id, entry, k, level, TouchesOf(s, st.runId)));
    case (Read(_), Watching(st, id, entry, k, level, seen)) =>
      WatchedSafe(s, at);
      assert RunOrdered(s, p, st.runId);
      var v := NextVersion(RGet(s.db, p, st.runId), st, id);
      if v.Success? {
        ReadOk(s, p, st, id, entry, k, level, seen);
        MoveKeeps(s, p, c, Queued(v.value, id, entry, k, level, seen));
      }
    case (Exec(_), Queued(w, id, entry, k, level, seen)) =>
      if k < RETRIES {
        LostOk(s, w, id, entry, k, level, seen);
        MoveKeeps(s, p, c, Entering(w, id, entry, k + 1, level));
      }
    case _ =>
  }

  lemma MoveIdle(s: System, p: string, c: nat)
    requires Inv(s, p)
    ensures Inv(Move(s, c, Idle), p)
  {
    hide Inv;
    IdleOk(s);
    MoveKeeps(s, p, c, Idle);
  }

  lemma IdleOk(s: System)
    ensures ClientOk(s, Idle)
  {
  }

  lemma WatchedSafe(s: System, c: Client)
    requires c.Watching? && ClientOk(s, c)
    ensures SafeRunId(c.state.runId)
  {
    hide SafeRunId;
  }

  lemma CommitKeepsRuns(s: System, p: string, c: nat, r: string)
    requires Inv(s, p) && At(s, c).Queued? && TouchesOf(s, At(s, c).state.runId) == At(s, c).seen
    requires SafeRunId(r)
    ensures RunOrdered(Next(s, p, Exec(c)), p, r)
  {
    hide SafeRunId, Text, CommitWrite, RGet, Of, Indexed, FreshIds, LogOk;
    var q := At(s, c);
    CommitRuns(s.db, p, q.state, q.id, r);
    OfSnoc(s.log, Commit(q.state, q.id, q.entry, q.attempt, q.level), r);
    assert RunOrdered(s, p, r) && ClientOk(s, q);
  }

  lemma OfSnoc(log: seq<Commit>, c: Commit, r: string)
    ensures Of(log + [c], r) == if c.state.runId == r then Of(log, r) + [c] else Of(log, r)
  {
    assert (log + [c])[..|log|] == log;
  }

  lemma QueuedSafe(s: System, p: string, c: nat)
    requires Inv(s, p) && At(s, c).Queued?
    ensures SafeRunId(At(s, c).state.runId)
  {
    hide SafeRunId, RunOrdered, Indexed, FreshIds, LogOk;
    assert ClientOk(s, s.clients[c]);
  }

  lemma CommitKeepsIndex(s: System, p: string, c: nat)
    requires Inv(s, p) && At(s, c).Queued? && TouchesOf(s, At(s, c).state.runId) == At(s, c).seen
    ensures Indexed(Next(s, p, Exec(c)), p)
  {
    hide SafeRunId, Text, CommitWrite, RunOrdered, ClientOk, LogOk, Of, RGet, RedisKeys.At;
    QueuedSafe(s, p, c);
    var q := At(s, c);
    var n := Next(s, p, Exec(c));
    CommitReads(s.db, p, q.state, q.id);
    assert n.log[..|n.log| - 1] == s.log;
    forall t ensures RList(n.db, p, ThreadCheckpointsKey(t)) == IdsOf(n.log, t) {
      assert Safe(ThreadCheckpointsKey(t));
    }
    forall i | 0 <= i < |n.log| ensures RCheckpoint(n.db, p, n.log[i].id) == Some(n.log[i].state) {
      assert Safe(CheckpointKey(n.log[i].id));
      if i < |s.log| {
        assert n.log[i] == s.log[i] && s.log[i].id != q.id;
      }
    }
  }

  lemma CommitStep(s: System, p: string, c: nat)
    requires Inv(s, p) && At(s, c).Queued? && TouchesOf(s, At(s, c).state.runId) == At(s, c).seen
    ensures Inv(Next(s, p, Exec(c)), p)
  {
    forall r | SafeRunId(r) ensures RunOrdered(Next(s, p, Exec(c)), p, r) {
      CommitKeepsRuns(s, p, c, r);
    }
    CommitKeepsIndex(s, p, c);
    CommitKeepsClients(s, p, c);
  }

  lemma CommitKeepsClients(s: System, p: string, c: nat)
    requires Inv(s, p) && At(s, c).Queued? && TouchesOf(s, At(s, c).state.runId) == At(s, c).seen
    ensures var n := Next(s, p, Exec(c));
      && FreshIds(n)
      && (forall d | d in n.clients :: ClientOk(n, n.clients[d]))
      && LogOk(n.log)
  {
    hide SafeRunId, Text, CommitWrite, RunOrdered, Indexed;
  }

  // ---- main results, over every interleaving ----

  lemma {:induction false} InvAlways(s: System, p: string, steps: seq<Step>)
    requires Inv(s, p) && AllPermitted(s, p, steps)
    ensures Inv(Run(s, p, steps), p)
    decreases |steps|
  {
    hide Inv, Permitted, Next;
    if steps != [] {
      StepKeepsInv(s, p, steps[0]);
      InvAlways(Next(s, p, steps[0]), p, steps[1..]);
    }
  }

  lemma StepKeepsInv(s: System, p: string, step: Step)
    requires Inv(s, p) && Permitted(s, step)
    ensures Inv(Next(s, p, step), p)
  {
    hide Inv, Permitted, Next;
    if step.Exec? && At(s, step.client).Queued?
      && TouchesOf(s, At(s, step.client).state.runId) == At(s, step.client).seen {
      CommitStep(s, p, step.client);
    } else {
      ClientStep(s, p, step);
    }
  }

  lemma StartInv(p: string)
    ensures Inv(START, p)
  {
    hide SafeRunId, Text;
  }

  /** Commit order: under every interleaving the epochs committed to a run are 1, 2, 3, ... in commit
      order, the run key holds the last one, and snapshot, checkpoint and one index entry of every
      commit are visible together: the index of a thread lists its commits and nothing else. */
  lemma CommitOrder(p: string, steps: seq<Step>)
    requires AllPermitted(START, p, steps)
    ensures var s := Run(START, p, steps);
      && (forall r | SafeRunId(r) :: RunOrdered(s, p, r))
      && Indexed(s, p)
  {
    hide SafeRunId, RunOrdered, Indexed, AllPermitted, FreshIds, Run, START;
    StartInv(p);
    InvAlways(START, p, steps);
  }

  /** Commits of a run with an epoch above some bound. */
  function Above(mine: seq<Commit>, bound: nat): nat {
    if |mine| <= bound then 0 else |mine| - bound
  }

  /** How many newer commits a put overwrites: whoever commits after entering put with epoch e writes the
      next epoch, so that those of the earlier commits with an epoch above e are lost under it; at most
      three, and at most one for each lost attempt. If the caller's state was not ahead of the store they
      are exactly as many as its lost attempts, so some if and only if it lost one. */
  lemma OverwrittenExactly(p: string, steps: seq<Step>, i: nat)
    requires AllPermitted(START, p, steps)
    requires i < |Run(START, p, steps).log|
    ensures
      var log := Run(START, p, steps).log;
      var c := log[i];
      var before := Of(log[..i], c.state.runId);
      && (forall j | 0 <= j < |before| :: before[j].state.epoch == j + 1)
      && c.state.epoch == |before| + 1
      && Above(before, c.entry) == (if c.state.epoch - 1 > c.entry then c.state.epoch - 1 - c.entry else 0)
      && Above(before, c.entry) <= c.attempt <= 3
      && (c.level ==> Above(before, c.entry) == c.attempt)
  {
    hide SafeRunId, Text, Indexed, FreshIds, ClientOk, Next, Permitted, AllPermitted;
    StartInv(p);
    InvAlways(START, p, steps);
    var log := Run(START, p, steps).log;
    PrefixOrdered(log, i);
    assert RunOrdered(Run(START, p, steps), p, log[i].state.runId);
    var mine, before := Of(log, log[i].state.runId), Of(log[..i], log[i].state.runId);
    assert mine[|before|] == log[i];
    assert forall j | 0 <= j < |before| :: before[j] == mine[j];
  }

  /** The commits of a run before position i, then the one at i, open the run's commits. */
  lemma {:induction false} PrefixOrdered(log: seq<Commit>, i: nat)
    requires i < |log|
    ensures var r := log[i].state.runId;
      Of(log[..i], r) + [log[i]] <= Of(log, r)
  {
    var n := |log| - 1;
    if i < n {
      assert log[..n][..i] == log[..i];
      PrefixOrdered(log[..n], i);
    }
  }

  // ---- a put that nobody disturbs ----

  /** The four steps of a put, taken one after the other: a caller that is not behind the store commits the
      next epoch; one that is behind writes nothing. */
  lemma UndisturbedCommits(s: System, p: string, c: nat, st: RunState, newId: string)
    requires Inv(s, p) && At(s, c).Idle? && SafeRunId(st.runId) && Consistent(st)
    ensures
      var n := Run(s, p, [Call(c, st, newId), Watch(c), Read(c), Exec(c)]);
      var stored := |Of(s.log, st.runId)|;
      && At(n, c).Idle?
      && (stored <= st.epoch ==>
            && |n.log| == |s.log| + 1 && n.log[..|s.log|] == s.log
            && n.log[|s.log|].state == st.(epoch := stored + 1, checkpointId := Some(ChosenId(st, newId)))
            && RGet(n.db, p, st.runId) == Some(n.log[|s.log|].state))
      && (st.epoch < stored ==> n.log == s.log && n.db == s.db)
  {
    hide SafeRunId, Text, RGet, CommitWrite, Of, Consistent, ChosenId, Inv, Run, NextVersion;
    var id := ChosenId(st, newId);
    StoredEpoch(s, p, st.runId);
    FourSteps(s, p, Call(c, st, newId), Watch(c), Read(c), Exec(c));
    ThreeSteps(s, p, c, st, newId);
    NextOf(RGet(s.db, p, st.runId), st, id);
    if |Of(s.log, st.runId)| <= st.epoch {
      CommitRuns(s.db, p, NextVersion(RGet(s.db, p, st.runId), st, id).value, id, st.runId);
    }
  }

  lemma NextOf(present: Option<RunState>, s: RunState, id: string)
    ensures
      var stored := match present case Some(x) => x.epoch case None => 0;
      NextVersion(present, s, id)
        == if s.epoch < stored then Failure(StaleWrite)
           else Success(s.(epoch := stored + 1, checkpointId := Some(id)))
  {
  }

  /** Up to the EXEC: the write is queued, or the caller is behind the store. */
  lemma ThreeSteps(s: System, p: string, c: nat, st: RunState, newId: string)
    requires At(s, c).Idle? && Consistent(st)
    ensures
      var n := Next(Next(Next(s, p, Call(c, st, newId)), p, Watch(c)), p, Read(c));
      var touches := TouchesOf(s, st.runId);
      && n.db == s.db && n.touches == s.touches && n.log == s.log
      && match NextVersion(RGet(s.db, p, st.runId), st, ChosenId(st, newId))
         case Failure(_) => At(n, c) == Idle
         case Success(w) => At(n, c) == Queued(w, ChosenId(st, newId), st.epoch, 0, st.epoch <= touches, touches)
  {
    hide RGet, CommitWrite, Consistent, ChosenId, NextVersion;
  }

  lemma StoredEpoch(s: System, p: string, r: string)
    requires Inv(s, p) && SafeRunId(r)
    ensures
      var stored := |Of(s.log, r)|;
      && TouchesOf(s, r) == stored && (RGet(s.db, p, r).None? <==> stored == 0)
      && (stored > 0 ==> RGet(s.db, p, r).value.epoch == stored)
  {
    hide SafeRunId, RGet, Of, Indexed, FreshIds, ClientOk, LogOk;
    assert RunOrdered(s, p, r);
  }

  lemma FourSteps(s: System, p: string, a: Step, b: Step, c: Step, d: Step)
    ensures Run(s, p, [a, b, c, d]) == Next(Next(Next(Next(s, p, a), p, b), p, c), p, d)
  {
    hide Next;
    var s1 := Next(s, p, a);
    var s2 := Next(s1, p, b);
    var s3 := Next(s2, p, c);
    assert [a, b, c, d][1..] == [b, c, d] && [b, c, d][1..] == [c, d] && [c, d][1..] == [d] && [d][1..] == [];
    assert Run(s3, p, [d]) == Run(Next(s3, p, d), p, []);
    assert Run(s2, p, [c, d]) == Run(s3, p, [d]);
    assert Run(s1, p, [b, c, d]) == Run(s2, p, [c, d]);
  }
}
