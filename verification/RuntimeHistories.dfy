/** What holds of a runtime over its whole life and over restarts: the checkpoints of all its runs are a
    forest, a run goes on unchanged on another runtime, and each of its runs is one of those the results
    on single runs speak of, whatever the other runs do in between. */
module RuntimeHistories {
  import opened Prelude
  import opened RunStates
  import opened RunStore
  import opened Workflows
  import opened Interrupts
  import opened InterruptManager
  import opened Lifecycle
  import opened LifecycleInvariants
  import opened LifecycleResults
  import opened Reloading
  import opened LocalRuntimes

  // ---- the forest of checkpoints ----

  /** From any checkpoint in the store, parents lead in finitely many steps, through the runs it was
      restored from, to a checkpoint without a parent; no checkpoint is met twice on the way. */
  lemma {:induction false} ParentsReachARoot(w: World, c: string)
    requires Sane(w) && c in w.mem.checkpoints
    ensures
      var up := Ancestors(w.mem.checkpoints, Some(c), |c| + 1);
      && up != [] && up[0] == w.mem.checkpoints[c] && up[|up| - 1].parentCheckpointId.None?
      && (forall i | 0 <= i < |up| :: up[i].checkpointId.Some?)
      && (forall i | 0 < i < |up| :: up[i].checkpointId == up[i - 1].parentCheckpointId)
      && (forall i, j | 0 <= i < j < |up| :: IdLength(up[j]) < IdLength(up[i]))
  {
    hide StoreKept, IdsOk, ActiveOk, CheckpointsHeld, Accounted;
    RootedClimb(w.mem.checkpoints, c, |c| + 1);
  }

  lemma {:induction false} RootedClimb(table: map<string, RunState>, c: string, n: nat)
    requires (forall i | i in table :: Rooted(table, i)) && c in table && |c| < n
    ensures
      var up := Ancestors(table, Some(c), n);
      && up != [] && up[0] == table[c] && up[|up| - 1].parentCheckpointId.None?
      && (forall i | 0 <= i < |up| :: up[i].checkpointId.Some? && IdLength(up[i]) <= |c|)
      && (forall i | 0 < i < |up| :: up[i].checkpointId == up[i - 1].parentCheckpointId)
      && (forall i, j | 0 <= i < j < |up| :: IdLength(up[j]) < IdLength(up[i]))
    decreases n
  {
    assert Rooted(table, c);
    var parent := table[c].parentCheckpointId;
    if parent.Some? {
      RootedClimb(table, parent.value, n - 1);
      var rest := Ancestors(table, parent, n - 1);
      var up := Ancestors(table, Some(c), n);
      assert up == [table[c]] + rest;
      assert forall i | 0 < i < |up| :: up[i] == rest[i - 1];
    }
  }

  // ---- restarts ----

  /** Another runtime over the same stores: nothing cached, no event seen. */
  function Restarted(w: World): World {
    w.(runs := map[], audit := map[])
  }

  lemma RestartSane(setup: Setup, w: World)
    requires Sane(w)
    ensures Sane(Restarted(w))
    ensures Restorable(setup, w) ==> Restorable(setup, Restarted(w))
  {
    hide StoreKept, ActiveOk, CheckpointsHeld, Accounted, CheckpointsPlaced;
  }

  /** A new runtime over stores in use: its cache and its trails are empty, its stores are the old ones. */
  method Restart(r: LocalRuntime) returns (n: LocalRuntime)
    requires r.Valid() && Restorable(r.setup, r.View())
    ensures fresh(n) && n.setup == r.setup && n.store == r.store && n.manager == r.manager
    ensures n.Valid() && Restorable(n.setup, n.View()) && n.View() == Restarted(r.View())
  {
    hide Sane, Restorable, InMemoryRunStore.View, InMemoryInterruptStore.View;
    RestartSane(r.setup, r.View());
    n := new LocalRuntime(r.setup, r.store, r.manager, r.issued, r.lineages, r.registered);
  }

  /** And over stores that hold nothing. */
  method FirstStart(setup: Setup) returns (n: LocalRuntime)
    requires Orderly(setup)
    ensures fresh(n) && n.setup == setup && n.Valid() && Restorable(setup, n.View())
    ensures n.View() == World(map[], RunStore.EMPTY, EMPTY_STORE, map[], 0, map[], map[])
  {
    hide Sane, Restorable, InMemoryRunStore.View, InMemoryInterruptStore.View;
    EmptySane(setup);
    var store := new InMemoryRunStore();
    var interrupts := new InMemoryInterruptStore();
    var manager := new InterruptManager(interrupts, setup.defaultTtl);
    n := new LocalRuntime(setup, store, manager, 0, map[], map[]);
  }

  lemma EmptySane(setup: Setup)
    ensures
      var w := World(map[], RunStore.EMPTY, EMPTY_STORE, map[], 0, map[], map[]);
      Sane(w) && Restorable(setup, w)
  {
  }

  /** A run at rest is found there as it was left. */
  lemma RestartKeeps(setup: Setup, o: Origin, past: seq<Event>, w: World, k: Kernel)
    requires Keeps(w, k) && Inv(setup, o, After(past, k)) && k.phase.Idle?
    ensures k.stored.Some? && Keeps(Restarted(w), Reloaded(k)) && After(past + k.trail, Reloaded(k)) == After(past, k)
  {
    hide Storage, OneOpen, Story, CheckpointsPlaced, OnlyRun;
    assert past + k.trail + [] == past + k.trail;
  }

  /** Resumed there instead of here, it ends in the same state, with the same snapshot, checkpoints and
      requests, and emits the same events. */
  lemma RestartContinues(setup: Setup, o: Origin, past: seq<Event>, k: Kernel, payload: ResumePayload, now: int,
                         turns: seq<Turn>,
                         here: World, there: World)
    requires Inv(setup, o, After(past, k)) && k.phase.Idle? && k.stored.Some? && k.sum == Replay(k.trail)
    requires Mirrors(here, Run(setup, Resume(setup, k, payload, now), GoAll(turns)))
    requires Mirrors(there, Run(setup, Resume(setup, Reloaded(k), payload, now), GoAll(turns)))
    ensures
      var a, b := SliceOf(here, k.state.runId), SliceOf(there, k.state.runId);
      && b.cached == a.cached && b.stored == a.stored && b.lineage == a.lineage && b.desk == a.desk
      && a.trail == k.trail + b.trail
  {
    hide Inv, Run, Resume, GoAll, OnlyRun, Replay;
    IdleCached(setup, o, past, k);
    assert k.trail + [] == k.trail;
    assert After(k.trail, Reloaded(k)) == k;
    AfterResume(k.trail, setup, Reloaded(k), payload, now);
    AfterRun(k.trail, setup, Resume(setup, Reloaded(k), payload, now), GoAll(turns));
    ResumeOfRun(setup, k, payload, now);
    RunOfRun(setup, Resume(setup, k, payload, now), GoAll(turns));
    ResumeOfRun(setup, Reloaded(k), payload, now);
    RunOfRun(setup, Resume(setup, Reloaded(k), payload, now), GoAll(turns));
  }

  /** A run that is not at rest is found RUNNING, as it was last saved: there it counts as abandoned, since
      no resume sets a RUNNING run going. */
  lemma RestartLoses(setup: Setup, o: Origin, past: seq<Event>, w: World, k: Kernel)
    requires Keeps(w, k) && Sound(setup, o, After(past, k)) && !k.phase.Idle?
    ensures k.stored.Some? && k.stored.value.status == RUNNING && Keeps(Restarted(w), Reloaded(k))
    ensures After(past + k.trail, Reloaded(k)) == Next(setup, After(past, k), Lost)
  {
    hide Sound, Wrecked, Keeps, Replay;
    var lost := After(past, k);
    LostWorks(setup, o, lost);
    StoredRun(setup, o, lost);
    WreckedStored(setup, o, lost.(state := lost.stored.value, phase := Crashed));
    ReloadKept(w, k);
    assert past + k.trail + [] == past + k.trail;
  }

  lemma WreckedStored(setup: Setup, o: Origin, k: Kernel)
    requires Wrecked(setup, o, k)
    ensures k.stored.Some? && k.stored.value.status == RUNNING
  {
    hide Unrecorded;
  }

  lemma ReloadKept(w: World, k: Kernel)
    requires Keeps(w, k) && k.stored.Some? && k.stored.value.runId == k.state.runId
    ensures Keeps(Restarted(w), Reloaded(k))
  {
    hide OnlyRun;
  }

  lemma StoredRun(setup: Setup, o: Origin, k: Kernel)
    requires Sound(setup, o, k)
    ensures k.stored.Some? && k.stored.value.runId == k.state.runId
  {
    hide Linked, OneOpen, Story, CheckpointsPlaced, Replay, TokensOk, HandoffsOk, WalkBase, Walkable, Placed;
  }

  lemma IdleCached(setup: Setup, o: Origin, past: seq<Event>, k: Kernel)
    requires Inv(setup, o, After(past, k)) && k.phase.Idle?
    ensures k.stored == Some(k.state)
  {
    hide Storage, OneOpen, Story, CheckpointsPlaced;
  }

  // ---- every run of a runtime ----

  /** A run so far: how it began, what happened to it, what earlier runtimes emitted of it, and its part
      of this runtime. */
  datatype Life = Life(birth: Birth, labels: seq<Label>, past: seq<Event>, run: Kernel)

  ghost predicate Lived(setup: Setup, w: World, life: Life)
    requires setup.workflow.entry.Some?
  {
    && Genuine(setup, life.birth) && Later(setup, life.birth, life.labels) == After(life.past, life.run)
    && Keeps(w, life.run)
  }

  ghost predicate Traced(setup: Setup, w: World, lives: map<string, Life>)
    requires setup.workflow.entry.Some?
  {
    forall r | r in lives :: lives[r].run.state.runId == r && Lived(setup, w, lives[r])
  }

  /** While another run moves, this one only sees uuids drawn. */
  function Aside(life: Life, drawn: nat): Life {
    life.(labels := life.labels + [Others(drawn)], run := life.run.(issued := life.run.issued + drawn))
  }

  lemma OthersMove(setup: Setup, v: World, w: World, r: string, life: Life)
    requires setup.workflow.entry.Some? && Lived(setup, v, life) && life.run.state.runId != r
    requires Apart(v, w, r) && v.issued <= w.issued
    ensures Lived(setup, w, Aside(life, w.issued - v.issued))
  {
    hide Born, Run, Genuine, OnlyRun, Replay;
    var drawn := w.issued - v.issued;
    RunJoins(setup, Born(setup, life.birth), life.labels, [Others(drawn)]);
    OneLabel(setup, Later(setup, life.birth, life.labels), Others(drawn));
    KeptApart(v, w, r, life.run, drawn);
  }

  lemma OneLabel(setup: Setup, k: Kernel, l: Label)
    ensures Run(setup, k, [l]) == Next(setup, k, l)
  {
    hide Next;
    assert [l][1..] == [];
    assert Run(setup, Next(setup, k, l), []) == Next(setup, k, l);
  }

  lemma KeptApart(v: World, w: World, r: string, k: Kernel, drawn: nat)
    requires Keeps(v, k) && Apart(v, w, r) && k.state.runId != r && w.issued == v.issued + drawn
    ensures Keeps(w, k.(issued := k.issued + drawn))
  {
    hide OnlyRun, Replay;
    var q := k.state.runId;
    assert SliceOf(w, q) == SliceOf(v, q);
  }

  function AllAside(lives: map<string, Life>, drawn: nat): map<string, Life> {
    map r | r in lives :: Aside(lives[r], drawn)
  }

  /** run_workflow and resume_from_checkpoint, as their contracts say: the runs there were go on being
      traced, and so is the new one. */
  lemma StartTraced(setup: Setup, v: World, w: World, b: Birth, turns: seq<Turn>, lives: map<string, Life>)
    requires setup.workflow.entry.Some? && Sane(v) && Traced(setup, v, lives) && Genuine(setup, b)
    requires b.runId == Uuid(v.issued) && Apart(v, w, b.runId) && v.issued <= w.issued
    requires Mirrors(w, Run(setup, Born(setup, b), GoAll(turns)))
    ensures
      var n := Run(setup, Born(setup, b), GoAll(turns));
      && b.runId !in lives
      && Traced(setup, w, AllAside(lives, w.issued - v.issued)[b.runId := Life(b, GoAll(turns), [], n)])
  {
    hide Born, Run, Genuine, Sane, SliceOf, Lived, Aside, GoAll;
    var n := Run(setup, Born(setup, b), GoAll(turns));
    BornId(setup, b);
    RunOfRun(setup, Born(setup, b), GoAll(turns));
    NothingBefore(w, n);
    LivedNow(setup, w, Life(b, GoAll(turns), [], n));
    forall r | r in lives
      ensures r != b.runId && lives[r].run.state.runId == r && Lived(setup, w, Aside(lives[r], w.issued - v.issued)) {
      KnownId(setup, v, lives[r]);
      OthersMove(setup, v, w, b.runId, lives[r]);
    }
    AsideId();
  }

  lemma AsideId()
    ensures forall life: Life, drawn :: Aside(life, drawn).run.state == life.run.state
  {
  }

  lemma LivedNow(setup: Setup, w: World, life: Life)
    requires setup.workflow.entry.Some? && Genuine(setup, life.birth) && Mirrors(w, life.run)
    requires Later(setup, life.birth, life.labels) == After(life.past, life.run)
    ensures Lived(setup, w, life)
  {
    hide Mirrors, Genuine, Born, Run;
  }

  lemma BornId(setup: Setup, b: Birth)
    requires setup.workflow.entry.Some?
    ensures Born(setup, b).state.runId == b.runId
  {
    hide Consistent, Read;
  }

  /** A uuid still to be drawn names no run. */
  lemma KnownId(setup: Setup, w: World, life: Life)
    requires setup.workflow.entry.Some? && Sane(w) && Lived(setup, w, life)
    ensures life.run.state.runId != Uuid(w.issued)
  {
    hide StoreKept, ActiveOk, CheckpointsHeld, ForestOk, Accounted, Born, Run, Genuine, OnlyRun, Replay, After;
    assert SliceOf(w, life.run.state.runId).stored.Some? || SliceOf(w, life.run.state.runId).cached.Some?;
  }

  /** What resume_workflow does to a run: one that does not wait stays as it is. */
  function Carried(setup: Setup, k: Kernel, payload: ResumePayload, now: int, turns: seq<Turn>): Kernel {
    if Resumable(k) then Run(setup, Resume(setup, k, payload, now), GoAll(turns)) else k
  }

  function CarriedOn(setup: Setup, life: Life, payload: ResumePayload, now: int, turns: seq<Turn>): Life {
    Life(life.birth, if Resumable(life.run) then life.labels + ([Call(payload, now)] + GoAll(turns)) else life.labels,
         life.past, Carried(setup, life.run, payload, now, turns))
  }

  /** resume_workflow of a traced run, as its contract says. */
  lemma ResumeTraced(setup: Setup, v: World, w: World, r: string, payload: ResumePayload, now: int, turns: seq<Turn>,
                     lives: map<string, Life>)
    requires Accepted(setup.workflow) && Traced(setup, v, lives) && r in lives
    requires Apart(v, w, r) && v.issued <= w.issued
    requires Mirrors(w, Carried(setup, lives[r].run, payload, now, turns))
    ensures Traced(setup, w, AllAside(lives, w.issued - v.issued)[r := CarriedOn(setup, lives[r], payload, now, turns)])
  {
    hide Born, Run, Genuine, SliceOf, Lived, Aside, Resume, GoAll, Closed, Coherent, Distinct;
    var life := lives[r];
    LivedParts(setup, v, life);
    if Resumable(life.run) {
      TracedResumes(setup, v, life);
      ResumeOfRun(setup, life.run, payload, now);
      RunOfRun(setup, Resume(setup, life.run, payload, now), GoAll(turns));
      ResumedLater(setup, life, payload, now, turns);
    }
    LivedNow(setup, w, CarriedOn(setup, life, payload, now, turns));
    forall q | q in lives && q != r ensures Lived(setup, w, Aside(lives[q], w.issued - v.issued)) {
      OthersMove(setup, v, w, r, lives[q]);
    }
    AsideId();
  }

  /** A traced run that waits is at rest, under the invariant: what resume_workflow is called with. */
  lemma TracedResumes(setup: Setup, w: World, life: Life)
    requires Accepted(setup.workflow) && Lived(setup, w, life) && Resumable(life.run)
    ensures life.run.phase == Idle && Inv(setup, OriginOf(setup, life.birth), After(life.past, life.run))
      && Keeps(w, life.run)
  {
    hide Born, Run, Genuine, Closed, Coherent, Distinct, Keeps, Unrecorded, Storage, Synced, OneOpen, Story,
      CheckpointsPlaced, Replay;
    Always(setup, life.birth, life.labels);
  }

  lemma LivedParts(setup: Setup, w: World, life: Life)
    requires setup.workflow.entry.Some? && Lived(setup, w, life)
    ensures Genuine(setup, life.birth) && Later(setup, life.birth, life.labels) == After(life.past, life.run)
  {
    hide Genuine, Born, Run, Keeps;
  }

  lemma ResumedLater(setup: Setup, life: Life, payload: ResumePayload, now: int, turns: seq<Turn>)
    requires setup.workflow.entry.Some? && Later(setup, life.birth, life.labels) == After(life.past, life.run)
      && life.run.phase.Idle?
    ensures Later(setup, life.birth, life.labels + ([Call(payload, now)] + GoAll(turns)))
         == After(life.past, Run(setup, Resume(setup, life.run, payload, now), GoAll(turns)))
  {
    hide Born, Resume, GoAll, Replay;
    var k := Later(setup, life.birth, life.labels);
    var more := [Call(payload, now)] + GoAll(turns);
    RunJoins(setup, Born(setup, life.birth), life.labels, more);
    assert more[1..] == GoAll(turns);
    AfterResume(life.past, setup, life.run, payload, now);
    AfterRun(life.past, setup, Resume(setup, life.run, payload, now), GoAll(turns));
  }

  /** The run on another runtime over the same stores. */
  function Renewed(life: Life): Life {
    if life.run.stored.None? then life
    else Life(life.birth, if life.run.phase.Idle? then life.labels else life.labels + [Lost],
              life.past + life.run.trail, Reloaded(life.run))
  }

  /** A restart: every run goes on being traced, at rest, abandoned or in the loop. */
  lemma RestartTraced(setup: Setup, w: World, lives: map<string, Life>)
    requires Accepted(setup.workflow) && Traced(setup, w, lives)
    ensures Traced(setup, Restarted(w), map r | r in lives :: Renewed(lives[r]))
  {
    hide Lived, Closed, Coherent, Distinct, Reloaded;
    forall r | r in lives
      ensures Renewed(lives[r]).run.state.runId == r && Lived(setup, Restarted(w), Renewed(lives[r])) {
      RenewedLives(setup, w, lives[r]);
    }
  }

  lemma RenewedLives(setup: Setup, w: World, life: Life)
    requires Accepted(setup.workflow) && Lived(setup, w, life)
    ensures Lived(setup, Restarted(w), Renewed(life)) && Renewed(life).run.state.runId == life.run.state.runId
  {
    hide Born, Run, Genuine, SliceOf, Closed, Coherent, Distinct, Keeps, Inv, Wrecked, Replay, Next, Restarted;
    var o := OriginOf(setup, life.birth);
    Always(setup, life.birth, life.labels);
    StoredRun(setup, o, After(life.past, life.run));
    if life.run.phase.Idle? {
      RestartKeeps(setup, o, life.past, w, life.run);
    } else {
      RestartLoses(setup, o, life.past, w, life.run);
      RunJoins(setup, Born(setup, life.birth), life.labels, [Lost]);
      OneLabel(setup, Later(setup, life.birth, life.labels), Lost);
    }
  }

  // ---- tending the requests ----

  predicate Tending(l: Label) {
    l.Poll? || l.Look? || l.Sweep? || l.Clear?
  }

  lemma OnlyTended(st: Store, r: string, l: Label, x: string)
    requires StoreKept(st) && Tending(l)
    ensures OnlyRun(Tended(st, r, l), x) == if x == r || l.Sweep? then Tended(OnlyRun(st, x), x, l) else OnlyRun(st, x)
  {
    match l
    case Poll(now) => OnlyAged(st, r, now, x);
    case Look(id, now) => OnlyLooked(st, r, id, now, x);
    case Sweep(now) => OnlySwept(st, now, x);
    case Clear(now) => OnlyCleared(st, r, now, x);
  }

  lemma OnlyLooked(st: Store, r: string, id: string, now: int, x: string)
    requires StoreKept(st)
    ensures OnlyRun(Looked(st, r, id, now).0, x) == if x == r then Looked(OnlyRun(st, x), x, id, now).0
      else OnlyRun(st, x)
  {
    hide OnlyRun, Saved, RequestOf, Listed, StoreKept;
    OnlyLists(st, r, id);
    var found := RequestOf(st, r, id);
    if found.Some? {
      RequestKept(st, r, id);
      OnlySaved(st, found.value.(status := Expired), x);
    }
  }

  lemma OnlySwept(st: Store, now: int, x: string)
    ensures OnlyRun(Swept(st, now), x) == Swept(OnlyRun(st, x), now)
  {
    hide Undue;
  }

  lemma OnlyCleared(st: Store, r: string, now: int, x: string)
    ensures OnlyRun(Cleared(st, r, now), x) == if x == r then Cleared(OnlyRun(st, x), x, now) else OnlyRun(st, x)
  {
    hide Restrict, LiveIds;
  }

  /** What tending one run's requests, or sweeping all runs', does to the runs. */
  function Tend(setup: Setup, lives: map<string, Life>, r: string, l: Label): map<string, Life> {
    map q | q in lives ::
      if q == r || l.Sweep? then lives[q].(labels := lives[q].labels + [l], run := Next(setup, lives[q].run, l))
        else lives[q]
  }

  lemma TendTraced(setup: Setup, v: World, r: string, l: Label, lives: map<string, Life>)
    requires setup.workflow.entry.Some? && StoreKept(v.desk) && Tending(l) && Traced(setup, v, lives)
    ensures Traced(setup, v.(desk := Tended(v.desk, r, l)), Tend(setup, lives, r, l))
  {
    hide Lived, StoreKept, Tended;
    var w, n := v.(desk := Tended(v.desk, r, l)), Tend(setup, lives, r, l);
    forall q | q in lives ensures n[q].run.state.runId == q && Lived(setup, w, n[q]) {
      OnlyTended(v.desk, r, l, q);
      if q == r || l.Sweep? {
        TendedLives(setup, v, w, lives[q], l);
      } else {
        UntouchedLives(setup, v, w, lives[q]);
      }
    }
  }

  lemma TendedLives(setup: Setup, v: World, w: World, life: Life, l: Label)
    requires setup.workflow.entry.Some? && Lived(setup, v, life) && Tending(l) && w == v.(desk := w.desk)
    requires OnlyRun(w.desk, life.run.state.runId)
      == Tended(OnlyRun(v.desk, life.run.state.runId), life.run.state.runId, l)
    ensures Lived(setup, w, life.(labels := life.labels + [l], run := Next(setup, life.run, l)))
  {
    hide Born, Run, Genuine, OnlyRun, Replay, Tended;
    RunJoins(setup, Born(setup, life.birth), life.labels, [l]);
    OneLabel(setup, Later(setup, life.birth, life.labels), l);
    AfterNext(life.past, setup, life.run, l);
  }

  lemma UntouchedLives(setup: Setup, v: World, w: World, life: Life)
    requires setup.workflow.entry.Some? && Lived(setup, v, life) && w == v.(desk := w.desk)
    requires OnlyRun(w.desk, life.run.state.runId) == OnlyRun(v.desk, life.run.state.runId)
    ensures Lived(setup, w, life)
  {
    hide Born, Run, Genuine, OnlyRun, Replay;
  }

  // ---- the whole life of a runtime ----

  /** A call that starts or restores a run, one that resumes a run or loads it, one that lists, looks at,
      sweeps or clears interrupts, and a new runtime over the same stores. */
  datatype Deed =
    | Starts(birth: Birth, turns: seq<Turn>)
    | Resumes(runId: string, payload: ResumePayload, now: int, turns: seq<Turn>)
    | Loads(runId: string)
    | Tends(runId: string, how: Label)
    | Renews

  /** What the contracts of the calls say the runtime is afterwards. */
  ghost predicate Happens(setup: Setup, v: World, lives: map<string, Life>, deed: Deed, w: World)
    requires setup.workflow.entry.Some?
  {
    match deed
    case Starts(b, turns) =>
      && Sane(v) && Genuine(setup, b) && b.runId == Uuid(v.issued) && Apart(v, w, b.runId) && v.issued <= w.issued
      && Mirrors(w, Run(setup, Born(setup, b), GoAll(turns)))
    case Resumes(r, payload, now, turns) =>
      && r in lives && Apart(v, w, r) && v.issued <= w.issued
      && Mirrors(w, Carried(setup, lives[r].run, payload, now, turns))
    case Loads(r) => r in lives && Apart(v, w, r) && v.issued == w.issued && Mirrors(w, lives[r].run)
    case Tends(r, l) => Tending(l) && StoreKept(v.desk) && w == v.(desk := Tended(v.desk, r, l))
    case Renews => w == Restarted(v)
  }

  ghost function LivesOn(setup: Setup, v: World, lives: map<string, Life>, deed: Deed, w: World): map<string, Life>
    requires setup.workflow.entry.Some? && Happens(setup, v, lives, deed, w)
  {
    match deed
    case Starts(b, turns) =>
      AllAside(lives, w.issued - v.issued)
        [b.runId := Life(b, GoAll(turns), [], Run(setup, Born(setup, b), GoAll(turns)))]
    case Resumes(r, payload, now, turns) =>
      AllAside(lives, w.issued - v.issued)[r := CarriedOn(setup, lives[r], payload, now, turns)]
    case Loads(r) => AllAside(lives, 0)[r := lives[r]]
    case Tends(r, l) => Tend(setup, lives, r, l)
    case Renews => map r | r in lives :: Renewed(lives[r])
  }

  /** The runtime goes through these states by these deeds. */
  ghost predicate History(setup: Setup, worlds: seq<World>, lives: seq<map<string, Life>>, deeds: seq<Deed>)
    requires setup.workflow.entry.Some?
  {
    && |worlds| == |lives| == |deeds| + 1 && worlds[0].runs == map[] && lives[0] == map[]
    && forall i | 0 <= i < |deeds| ::
         Happens(setup, worlds[i], lives[i], deeds[i], worlds[i + 1])
         && lives[i + 1] == LivesOn(setup, worlds[i], lives[i], deeds[i], worlds[i + 1])
  }

  /** Loading a run changes the cache alone. */
  lemma LoadTraced(setup: Setup, v: World, w: World, r: string, lives: map<string, Life>)
    requires setup.workflow.entry.Some? && Traced(setup, v, lives) && r in lives
    requires Apart(v, w, r) && v.issued == w.issued && Mirrors(w, lives[r].run)
    ensures Traced(setup, w, AllAside(lives, 0)[r := lives[r]])
  {
    hide Born, Run, Genuine, SliceOf, Lived, Aside;
    LivedParts(setup, v, lives[r]);
    LivedNow(setup, w, lives[r]);
    forall q | q in lives && q != r ensures Lived(setup, w, Aside(lives[q], 0)) {
      OthersMove(setup, v, w, r, lives[q]);
    }
    AsideId();
  }

  /** Every run in the cache, and every run the store has got since. */
  ghost predicate Covers(lives: map<string, Life>, w: World, first: World) {
    && (forall r | r in w.runs :: r in lives)
    && (forall r | r in w.mem.state :: r in lives || r in first.mem.state)
  }

  lemma DeedTraced(setup: Setup, v: World, lives: map<string, Life>, deed: Deed, w: World, first: World)
    requires Accepted(setup.workflow) && Traced(setup, v, lives) && Happens(setup, v, lives, deed, w)
    requires Covers(lives, v, first)
    ensures Traced(setup, w, LivesOn(setup, v, lives, deed, w))
    ensures Covers(LivesOn(setup, v, lives, deed, w), w, first)
  {
    hide Born, Run, Genuine, Sane, Traced, Mirrors, Carried, CarriedOn, GoAll, Closed, Coherent, Distinct, Aside,
      Renewed, Next, StoreKept, Tended;
    match deed
    case Starts(b, turns) =>
      StartTraced(setup, v, w, b, turns, lives);
      OldRuns(v, w, b.runId);
    case Resumes(r, payload, now, turns) =>
      ResumeTraced(setup, v, w, r, payload, now, turns, lives);
      OldRuns(v, w, r);
    case Loads(r) =>
      LoadTraced(setup, v, w, r, lives);
      OldRuns(v, w, r);
    case Tends(r, l) => TendTraced(setup, v, r, l, lives);
    case Renews => RestartTraced(setup, v, lives);
  }

  lemma OldRuns(v: World, w: World, r: string)
    requires Apart(v, w, r)
    ensures forall q | q in w.runs && q != r :: q in v.runs
    ensures forall q | q in w.mem.state && q != r :: q in v.mem.state
  {
    forall q | q != r ensures (q in w.runs ==> q in v.runs) && (q in w.mem.state ==> q in v.mem.state) {
      assert SliceOf(w, q) == SliceOf(v, q);
    }
  }

  /** Main result on the object: whatever a runtime is asked to do, restarts included, every run it has in
      its cache or has stored is, after any number of deeds, the run that its birth and the labels it has
      been through make it; so every result on single runs holds of it. */
  lemma {:induction false} EveryRunTraced(setup: Setup, worlds: seq<World>, lives: seq<map<string, Life>>,
                                          deeds: seq<Deed>, n: nat)
    requires Accepted(setup.workflow) && History(setup, worlds, lives, deeds) && n <= |deeds|
    ensures Traced(setup, worlds[n], lives[n])
    ensures Covers(lives[n], worlds[n], worlds[0])
  {
    hide Traced, Happens, LivesOn, Covers, Closed, Coherent, Distinct;
    if n == 0 {
      NothingTraced(setup, worlds[0]);
    } else {
      EveryRunTraced(setup, worlds, lives, deeds, n - 1);
      var i := n - 1;
      assert Happens(setup, worlds[i], lives[i], deeds[i], worlds[i + 1]);
      DeedTraced(setup, worlds[i], lives[i], deeds[i], worlds[i + 1], worlds[0]);
    }
  }

  lemma NothingTraced(setup: Setup, w: World)
    requires setup.workflow.entry.Some? && w.runs == map[]
    ensures Traced(setup, w, map[]) && Covers(map[], w, w)
  {
  }
}
