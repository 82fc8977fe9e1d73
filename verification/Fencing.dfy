/** Any number of runtimes with private caches over one in-memory run store, interleaved at each put
    and without deletes (LocalRuntime._load_state, _persist_state and the resume paths of
    governai/runtime/local.py against InMemoryRunStore.put). */
module Fencing {
  import opened Prelude
  import opened RunStates
  import opened RunStore

  /** A place in one runtime's cache of run states. */
  datatype Slot = Slot(runtime: nat, runId: string)

  /** How a runtime stands with one run: at rest, or driving it after claiming it at an epoch (0 for a run
      it started). A runtime may drive any number of runs at once, each in a task of its own. Executors
      are called only while advancing. */
  datatype Phase = Resting | Advancing(claimed: nat)

  /** The loop is under way: run_workflow stores a PENDING run before it turns it RUNNING. */
  predicate Live(status: Status) {
    status == PENDING || status == RUNNING
  }

  /** A call into an executor, and a claim of a new run at epoch 0 or of a waiting run at its epoch; both
      are history only. */
  datatype Execution = Execution(runtime: nat, runId: string, claimed: nat)
  datatype Claim = Claim(runtime: nat, runId: string, epoch: nat)

  datatype World = World(
    store: Mem,
    cache: map<Slot, RunState>,
    phase: map<Slot, Phase>,
    claims: seq<Claim>,
    executions: seq<Execution>)

  datatype Step =
    | Start(runtime: nat, state: RunState, newId: string)      // run_workflow or resume_from_checkpoint
    | Load(runtime: nat, runId: string)                        // _load_state
    | Resume(runtime: nat, state: RunState, newId: string)     // up to the put of a resume
    | Execute(runtime: nat, runId: string)                     // an executor is called
    | Work(runtime: nat, state: RunState, newId: string)       // any later put of the loop
    | Abandon(runtime: nat, state: RunState)                   // an exception escapes the loop

  predicate Waiting(status: Status) {
    status == WAITING_APPROVAL || status == WAITING_INTERRUPT
  }

  function PhaseOf(w: World, at: Slot): Phase {
    if at in w.phase then w.phase[at] else Resting
  }

  /** A put by runtime c: the caller goes on in the given phase while the run is live; an
      exception leaves it at rest with its copy unsaved. */
  function Put(w: World, c: nat, s: RunState, newId: string, phase: Phase, claims: seq<Claim>): World {
    match MemPut(w.store, s, newId)
    case Success(r) =>
      World(r.0, w.cache[Slot(c, s.runId) := r.1],
          w.phase[Slot(c, s.runId) := if Live(r.1.status) then phase else Resting],
            w.claims + claims, w.executions)
    case Failure(_) =>
      w.(cache := w.cache[Slot(c, s.runId) := s], phase := w.phase[Slot(c, s.runId) := Resting])
  }

  /** A new run id. */
  predicate Starts(w: World, c: nat, s: RunState) {
    s.runId !in w.store.state && Slot(c, s.runId) !in w.cache && Consistent(s)
  }

  /** A resume acts on the cached copy of a waiting run. */
  predicate Claims(w: World, c: nat, s: RunState) {
    var at := Slot(c, s.runId);
    && PhaseOf(w, at).Resting? && at in w.cache && Waiting(w.cache[at].status)
    && s.epoch == w.cache[at].epoch && Consistent(s)
  }

  /** The loop acts on the cached copy of the run it drives; every state it puts is consistent. */
  predicate Works(w: World, c: nat, s: RunState) {
    var at := Slot(c, s.runId);
    && PhaseOf(w, at).Advancing? && at in w.cache && s.epoch == w.cache[at].epoch && Consistent(s)
  }

  /** An executor is called for a run the runtime drives, once it is RUNNING. */
  predicate Executes(w: World, c: nat, r: string) {
    PhaseOf(w, Slot(c, r)).Advancing? && Slot(c, r) in w.cache && w.cache[Slot(c, r)].status == RUNNING
  }

  /** One step of one runtime; a step it is not ready for changes nothing. */
  function Next(w: World, step: Step): World {
    var c := step.runtime;
    match step
    case Start(_, s, newId) =>
      if Starts(w, c, s) then Put(w, c, s, newId, Advancing(0), [Claim(c, s.runId, 0)]) else w
    case Load(_, r) =>
      if Slot(c, r) !in w.cache && r in w.store.state then w.(cache := w.cache[Slot(c, r) := w.store.state[r]]) else w
    case Resume(_, s, newId) =>
      if Claims(w, c, s) then Put(w, c, s, newId, Advancing(s.epoch), [Claim(c, s.runId, s.epoch)]) else w
    case Execute(_, r) =>
      if Executes(w, c, r)
      then w.(executions := w.executions + [Execution(c, r, PhaseOf(w, Slot(c, r)).claimed)]) else w
    case Work(_, s, newId) =>
      if Works(w, c, s) then Put(w, c, s, newId, PhaseOf(w, Slot(c, s.runId)), []) else w
    case Abandon(_, s) =>
      if Works(w, c, s) && s.status == w.cache[Slot(c, s.runId)].status
      then w.(cache := w.cache[Slot(c, s.runId) := s], phase := w.phase[Slot(c, s.runId) := Resting]) else w
  }

  function Run(w: World, steps: seq<Step>): World
    decreases |steps|
  {
    if steps == [] then w else Run(Next(w, steps[0]), steps[1..])
  }

  const START := World(EMPTY, map[], map[], [], [])

  // ---- invariants ----

  /** A cached copy is never ahead of the store; at the store's epoch its status is the stored one. */
  ghost predicate CopyOk(w: World, r: string, copy: RunState) {
    && copy.runId == r && r in w.store.state
    && copy.epoch <= w.store.state[r].epoch
    && (copy.epoch == w.store.state[r].epoch ==> copy.status == w.store.state[r].status)
  }

  /** Whoever drives a run holds its newest copy, and the run is live. */
  ghost predicate DriverOk(w: World, at: Slot) {
    PhaseOf(w, at).Advancing? ==>
      && at in w.cache && at.runId in w.store.state
      && w.cache[at].epoch == w.store.state[at.runId].epoch && Live(w.cache[at].status)
      && PhaseOf(w, at).claimed < w.store.state[at.runId].epoch
  }

  ghost predicate OneDriver(w: World) {
    forall a: Slot, b: Slot | PhaseOf(w, a).Advancing? && PhaseOf(w, b).Advancing? && a.runId == b.runId :: a == b
  }

  /** Each epoch of a run is claimed at most once, and lies below the stored epoch from then on. */
  ghost predicate ClaimsOk(w: World) {
    && (forall i | 0 <= i < |w.claims| ::
          w.claims[i].runId in w.store.state && w.claims[i].epoch < w.store.state[w.claims[i].runId].epoch)
    && (forall i, j | 0 <= i < j < |w.claims| && w.claims[i].runId == w.claims[j].runId ::
          w.claims[i].epoch < w.claims[j].epoch)
  }

  /** Who drives or executes a run has claimed it. */
  ghost predicate Claimed(w: World, c: nat, r: string, epoch: nat) {
    Claim(c, r, epoch) in w.claims
  }

  ghost predicate StoredOk(m: Mem) {
    forall r | r in m.state :: m.state[r].epoch > 0 && m.state[r].runId == r
  }

  ghost predicate CopiesOk(w: World) {
    StoredOk(w.store) && forall at | at in w.cache :: CopyOk(w, at.runId, w.cache[at])
  }

  ghost predicate DriversOk(w: World) {
    (forall at :: DriverOk(w, at)) && OneDriver(w)
  }

  ghost predicate HistoryOk(w: World) {
    && ClaimsOk(w)
    && (forall at | PhaseOf(w, at).Advancing? :: Claimed(w, at.runtime, at.runId, PhaseOf(w, at).claimed))
    && (forall i | 0 <= i < |w.executions| ::
          Claimed(w, w.executions[i].runtime, w.executions[i].runId, w.executions[i].claimed))
  }

  ghost predicate Inv(w: World) {
    CopiesOk(w) && DriversOk(w) && HistoryOk(w)
  }

  // ---- one step ----

  /** What a put does to the stored run: a refused one nothing, an accepted one a single step past
      the caller's epoch when the caller is not ahead. */
  lemma PutStored(m: Mem, s: RunState, newId: string)
    requires Consistent(s) && (s.runId in m.state ==> s.epoch <= m.state[s.runId].epoch)
    ensures MemPut(m, s, newId).Success? <==> (s.runId in m.state ==> s.epoch == m.state[s.runId].epoch)
    ensures MemPut(m, s, newId).Success? ==>
      var r := MemPut(m, s, newId).value;
      && r.0.state == m.state[s.runId := r.1]
      && r.1.epoch == (if s.runId in m.state then s.epoch else 0) + 1
      && r.1.status == s.status && r.1.runId == s.runId
  {
  }

  ghost predicate Legitimate(w: World, c: nat, s: RunState, phase: Phase, claims: seq<Claim>) {
    || (Starts(w, c, s) && phase == Advancing(0) && claims == [Claim(c, s.runId, 0)])
    || (Claims(w, c, s) && phase == Advancing(s.epoch) && claims == [Claim(c, s.runId, s.epoch)])
    || (Works(w, c, s) && phase == PhaseOf(w, Slot(c, s.runId)) && claims == [])
  }

  /** A caller is never ahead of the store, and one that resumes at the store's epoch resumes a run
      that is stored as waiting. */
  lemma CallerNotAhead(w: World, c: nat, s: RunState, phase: Phase, claims: seq<Claim>)
    requires Inv(w) && Legitimate(w, c, s, phase, claims)
    ensures s.runId in w.store.state ==> s.epoch <= w.store.state[s.runId].epoch
    ensures s.runId in w.store.state && s.epoch == w.store.state[s.runId].epoch && claims != [] ==>
      Waiting(w.store.state[s.runId].status)
    ensures s.runId in w.store.state && claims != [] ==> claims == [Claim(c, s.runId, s.epoch)]
    ensures s.runId !in w.store.state ==> claims == [Claim(c, s.runId, 0)]
    ensures Consistent(s) && phase.Advancing? && (claims != [] ==> phase == Advancing(claims[0].epoch))
    ensures claims == [] ==> phase == PhaseOf(w, Slot(c, s.runId))
  {
    hide MemPut, DriversOk, HistoryOk;
    assert Slot(c, s.runId) in w.cache ==> CopyOk(w, s.runId, w.cache[Slot(c, s.runId)]);
  }

  lemma PutKeepsCopies(w: World, c: nat, s: RunState, newId: string, phase: Phase, claims: seq<Claim>)
    requires Inv(w) && Legitimate(w, c, s, phase, claims) && MemPut(w.store, s, newId).Success?
    ensures CopiesOk(Put(w, c, s, newId, phase, claims))
  {
    hide MemPut, DriversOk, HistoryOk, Legitimate, PhaseOf, Consistent, CopyOk;
    CallerNotAhead(w, c, s, phase, claims);
    PutStored(w.store, s, newId);
    var n, stored := Put(w, c, s, newId, phase, claims), MemPut(w.store, s, newId).value.1;
    forall at | at in n.cache ensures CopyOk(n, at.runId, n.cache[at]) {
      if at == Slot(c, s.runId) {
        CopyIsStored(n, s.runId, stored);
      } else {
        CopyAfterPut(w, n, at.runId, w.cache[at], stored);
      }
    }
  }

  lemma CopyIsStored(n: World, r: string, copy: RunState)
    requires r in n.store.state && n.store.state[r] == copy && copy.runId == r
    ensures CopyOk(n, r, copy)
  {
  }

  lemma CopyAfterPut(w: World, n: World, r: string, copy: RunState, stored: RunState)
    requires CopyOk(w, r, copy) && n.store.state == w.store.state[stored.runId := stored]
    requires stored.runId in w.store.state ==> w.store.state[stored.runId].epoch < stored.epoch
    ensures CopyOk(n, r, copy)
  {
  }

  /** No other runtime drives the run of an accepted put: it would hold the newest copy as live,
      while the caller starts the run, resumes it as waiting or drives it itself. */
  lemma NoOtherDriver(w: World, c: nat, s: RunState, newId: string, phase: Phase, claims: seq<Claim>, d: nat)
    requires Inv(w) && Legitimate(w, c, s, phase, claims) && MemPut(w.store, s, newId).Success?
    requires d != c
    ensures PhaseOf(w, Slot(d, s.runId)).Resting?
  {
    hide MemPut, HistoryOk, Consistent;
    CallerNotAhead(w, c, s, phase, claims);
    PutStored(w.store, s, newId);
    var at := Slot(d, s.runId);
    assert DriverOk(w, at);
    assert at in w.cache ==> CopyOk(w, s.runId, w.cache[at]);
  }

  lemma PutPhases(w: World, c: nat, s: RunState, newId: string, phase: Phase, claims: seq<Claim>)
    ensures var n := Put(w, c, s, newId, phase, claims);
      forall at :: PhaseOf(n, at) == (if at != Slot(c, s.runId) then PhaseOf(w, at)
                                      else if MemPut(w.store, s, newId).Success? && Live(s.status) then phase
                                        else Resting)
  {
  }

  lemma PutKeepsDriver(w: World, c: nat, s: RunState, newId: string, phase: Phase, claims: seq<Claim>, at: Slot)
    requires Inv(w) && Legitimate(w, c, s, phase, claims) && MemPut(w.store, s, newId).Success?
    ensures DriverOk(Put(w, c, s, newId, phase, claims), at)
  {
    hide MemPut, HistoryOk, CopiesOk, Consistent, Legitimate, PhaseOf;
    CallerNotAhead(w, c, s, phase, claims);
    PutStored(w.store, s, newId);
    PutPhases(w, c, s, newId, phase, claims);
    assert DriverOk(w, at) && DriverOk(w, Slot(c, s.runId));
    if at.runId == s.runId && at.runtime != c {
      NoOtherDriver(w, c, s, newId, phase, claims, at.runtime);
    }
  }

  lemma PutKeepsOneDriver(w: World, c: nat, s: RunState, newId: string, phase: Phase, claims: seq<Claim>)
    requires Inv(w) && Legitimate(w, c, s, phase, claims) && MemPut(w.store, s, newId).Success?
    ensures OneDriver(Put(w, c, s, newId, phase, claims))
  {
    hide MemPut, HistoryOk, CopiesOk, Consistent, Legitimate, DriverOk, PhaseOf;
    forall d: nat | d != c ensures PhaseOf(w, Slot(d, s.runId)).Resting? {
      NoOtherDriver(w, c, s, newId, phase, claims, d);
    }
    PutPhases(w, c, s, newId, phase, claims);
    var n := Put(w, c, s, newId, phase, claims);
    forall a: Slot, b: Slot | PhaseOf(n, a).Advancing? && PhaseOf(n, b).Advancing? && a.runId == b.runId
      ensures a == b {
      if a.runId == s.runId {
        assert a == Slot(a.runtime, s.runId) && b == Slot(b.runtime, s.runId);
      }
    }
  }

  lemma PutKeepsClaims(w: World, c: nat, s: RunState, newId: string, phase: Phase, claims: seq<Claim>)
    requires Inv(w) && Legitimate(w, c, s, phase, claims) && MemPut(w.store, s, newId).Success?
    ensures HistoryOk(Put(w, c, s, newId, phase, claims))
  {
    hide MemPut, DriversOk, CopyOk, Consistent, Legitimate, PhaseOf, ClaimsOk;
    CallerNotAhead(w, c, s, phase, claims);
    PutStored(w.store, s, newId);
    PutPhases(w, c, s, newId, phase, claims);
    assert StoredOk(w.store);
    var n, stored := Put(w, c, s, newId, phase, claims), MemPut(w.store, s, newId).value.1;
    ClaimsAfterPut(w, n, s.runId, s.epoch, stored, claims);
  }

  lemma ClaimsAfterPut(w: World, n: World, r: string, epoch: nat, stored: RunState, claims: seq<Claim>)
    requires ClaimsOk(w) && n.claims == w.claims + claims && n.store.state == w.store.state[r := stored]
    requires r in w.store.state ==> w.store.state[r].epoch < stored.epoch
    requires 0 < stored.epoch
    requires || claims == []
             || (r in w.store.state && w.store.state[r].epoch < stored.epoch
                 && exists c :: claims == [Claim(c, r, w.store.state[r].epoch)])
             || (r !in w.store.state && exists c :: claims == [Claim(c, r, 0)])
    ensures ClaimsOk(n)
  {
  }

  /** A refused put leaves the store alone and its caller at rest. */
  lemma RefusedPut(w: World, c: nat, s: RunState, newId: string, phase: Phase, claims: seq<Claim>)
    requires Inv(w) && Legitimate(w, c, s, phase, claims) && MemPut(w.store, s, newId).Failure?
    ensures
      var n := Put(w, c, s, newId, phase, claims);
      Inv(n) && n.store == w.store && PhaseOf(n, Slot(c, s.runId)).Resting?
  {
    hide MemPut, Legitimate, Consistent, Inv, CopyOk, DriverOk, ClaimsOk;
    CallerNotAhead(w, c, s, phase, claims);
    PutStored(w.store, s, newId);
    Stopped(w, c, s);
  }

  /** The world after a runtime drops its work on a run. */
  function Dropped(w: World, c: nat, s: RunState): World {
    w.(cache := w.cache[Slot(c, s.runId) := s], phase := w.phase[Slot(c, s.runId) := Resting])
  }

  lemma DroppedPhases(w: World, c: nat, s: RunState)
    ensures forall at :: PhaseOf(Dropped(w, c, s), at) == if at == Slot(c, s.runId) then Resting else PhaseOf(w, at)
  {
  }

  lemma DroppedCopies(w: World, c: nat, s: RunState)
    requires CopiesOk(w) && s.runId in w.store.state && s.epoch <= w.store.state[s.runId].epoch
    requires s.epoch == w.store.state[s.runId].epoch ==> s.status == w.store.state[s.runId].status
    ensures CopiesOk(Dropped(w, c, s))
  {
    var n := Dropped(w, c, s);
    forall at | at in n.cache ensures CopyOk(n, at.runId, n.cache[at]) {
      assert at in w.cache ==> CopyOk(w, at.runId, w.cache[at]);
    }
  }

  lemma DroppedDrivers(w: World, c: nat, s: RunState)
    requires DriversOk(w)
    ensures DriversOk(Dropped(w, c, s))
  {
    hide PhaseOf;
    DroppedPhases(w, c, s);
    forall at ensures DriverOk(Dropped(w, c, s), at) {
      assert DriverOk(w, at);
    }
  }

  lemma DroppedHistory(w: World, c: nat, s: RunState)
    requires HistoryOk(w)
    ensures HistoryOk(Dropped(w, c, s))
  {
    hide PhaseOf;
    DroppedPhases(w, c, s);
  }

  /** A runtime that drops its work, keeping an outdated or unfinished copy, disturbs nothing. */
  lemma Stopped(w: World, c: nat, s: RunState)
    requires Inv(w) && s.runId in w.store.state && s.epoch <= w.store.state[s.runId].epoch
    requires s.epoch == w.store.state[s.runId].epoch ==> s.status == w.store.state[s.runId].status
    ensures Inv(w.(cache := w.cache[Slot(c, s.runId) := s], phase := w.phase[Slot(c, s.runId) := Resting]))
  {
    hide CopiesOk, DriversOk, HistoryOk;
    DroppedCopies(w, c, s);
    DroppedDrivers(w, c, s);
    DroppedHistory(w, c, s);
  }

  lemma PutKeepsInv(w: World, c: nat, s: RunState, newId: string, phase: Phase, claims: seq<Claim>)
    requires Inv(w) && Legitimate(w, c, s, phase, claims)
    ensures Inv(Put(w, c, s, newId, phase, claims))
  {
    hide MemPut, Put, Legitimate, CopiesOk, DriverOk, OneDriver, HistoryOk;
    if MemPut(w.store, s, newId).Success? {
      PutKeepsCopies(w, c, s, newId, phase, claims);
      forall at {
        PutKeepsDriver(w, c, s, newId, phase, claims, at);
      }
      PutKeepsOneDriver(w, c, s, newId, phase, claims);
      PutKeepsClaims(w, c, s, newId, phase, claims);
    } else {
      RefusedPut(w, c, s, newId, phase, claims);
    }
  }

  lemma LoadKeepsInv(w: World, c: nat, r: string)
    requires Inv(w) && Slot(c, r) !in w.cache && r in w.store.state
    ensures Inv(w.(cache := w.cache[Slot(c, r) := w.store.state[r]]))
  {
    hide CopiesOk, DriversOk, HistoryOk;
    var n := w.(cache := w.cache[Slot(c, r) := w.store.state[r]]);
    LoadedCopies(w, n, Slot(c, r));
    LoadedDrivers(w, n, Slot(c, r), w.store.state[r]);
    SameHistory(w, n);
  }

  lemma LoadedCopies(w: World, n: World, at: Slot)
    requires CopiesOk(w) && at.runId in w.store.state && n.store == w.store
      && n.cache == w.cache[at := w.store.state[at.runId]]
    ensures CopiesOk(n)
  {
    hide CopyOk;
    forall x | x in n.cache ensures CopyOk(n, x.runId, n.cache[x]) {
      if x == at {
        CopyIsStored(n, at.runId, n.cache[x]);
      } else {
        SameCopy(w, n, x.runId, w.cache[x]);
      }
    }
  }

  lemma SameCopy(w: World, n: World, r: string, copy: RunState)
    requires CopyOk(w, r, copy) && n.store == w.store
    ensures CopyOk(n, r, copy)
  {
  }

  lemma LoadedDrivers(w: World, n: World, at: Slot, copy: RunState)
    requires DriversOk(w) && at !in w.cache && n.store == w.store && n.phase == w.phase
      && n.cache == w.cache[at := copy]
    ensures DriversOk(n)
  {
    assert forall x :: PhaseOf(n, x) == PhaseOf(w, x);
    forall x ensures DriverOk(n, x) {
      assert DriverOk(w, x);
    }
  }

  lemma SameHistory(w: World, n: World)
    requires HistoryOk(w) && n.store == w.store && n.phase == w.phase && n.claims == w.claims
      && n.executions == w.executions
    ensures HistoryOk(n)
  {
    assert forall x :: PhaseOf(n, x) == PhaseOf(w, x);
  }

  lemma ExecuteKeepsInv(w: World, c: nat, r: string)
    requires Inv(w) && PhaseOf(w, Slot(c, r)).Advancing?
    ensures Inv(w.(executions := w.executions + [Execution(c, r, PhaseOf(w, Slot(c, r)).claimed)]))
  {
    var n := w.(executions := w.executions + [Execution(c, r, PhaseOf(w, Slot(c, r)).claimed)]);
    assert forall at :: PhaseOf(n, at) == PhaseOf(w, at);
    forall at | at in n.cache ensures CopyOk(n, at.runId, n.cache[at]) {
      assert CopyOk(w, at.runId, w.cache[at]);
    }
    forall at ensures DriverOk(n, at) {
      assert DriverOk(w, at);
    }
  }

  lemma DriverHoldsNewest(w: World, at: Slot)
    requires Inv(w) && PhaseOf(w, at).Advancing?
    ensures
      && at in w.cache && at.runId in w.store.state
      && w.cache[at].epoch == w.store.state[at.runId].epoch && w.cache[at].status == w.store.state[at.runId].status
  {
    assert DriverOk(w, at);
    assert CopyOk(w, at.runId, w.cache[at]);
  }

  lemma StepKeepsInv(w: World, step: Step)
    requires Inv(w)
    ensures Inv(Next(w, step))
  {
    hide MemPut, Put, Inv, Starts, Claims;
    var c := step.runtime;
    match step
    case Start(_, s, newId) =>
      if Starts(w, c, s) {
        PutKeepsInv(w, c, s, newId, Advancing(0), [Claim(c, s.runId, 0)]);
      }
    case Resume(_, s, newId) =>
      if Claims(w, c, s) {
        PutKeepsInv(w, c, s, newId, Advancing(s.epoch), [Claim(c, s.runId, s.epoch)]);
      }
    case Work(_, s, newId) =>
      if Works(w, c, s) {
        PutKeepsInv(w, c, s, newId, PhaseOf(w, Slot(c, s.runId)), []);
      }
    case Load(_, r) =>
      if Slot(c, r) !in w.cache && r in w.store.state {
        LoadKeepsInv(w, c, r);
      }
    case Execute(_, r) =>
      if Executes(w, c, r) {
        ExecuteKeepsInv(w, c, r);
      }
    case Abandon(_, s) =>
      if Works(w, c, s) && s.status == w.cache[Slot(c, s.runId)].status {
        CallerNotAhead(w, c, s, PhaseOf(w, Slot(c, s.runId)), []);
        DriverHoldsNewest(w, Slot(c, s.runId));
        Stopped(w, c, s);
      }
  }

  // ---- main results, over every interleaving ----

  lemma {:induction false} InvAlways(w: World, steps: seq<Step>)
    requires Inv(w)
    ensures Inv(Run(w, steps))
    decreases |steps|
  {
    hide Inv, Next;
    if steps != [] {
      StepKeepsInv(w, steps[0]);
      InvAlways(Next(w, steps[0]), steps[1..]);
    }
  }

  /** Epochs of stored runs never fall and no run disappears. */
  lemma {:induction false} EpochsNeverFall(w: World, steps: seq<Step>, r: string)
    requires Inv(w) && r in w.store.state
    ensures var n := Run(w, steps); r in n.store.state && w.store.state[r].epoch <= n.store.state[r].epoch
    decreases |steps|
  {
    hide Inv, Next;
    if steps != [] {
      StepKeepsInv(w, steps[0]);
      StepKeepsEpoch(w, steps[0], r);
      EpochsNeverFall(Next(w, steps[0]), steps[1..], r);
    }
  }

  lemma StepKeepsEpoch(w: World, step: Step, r: string)
    requires Inv(w) && r in w.store.state
    ensures var n := Next(w, step); r in n.store.state && w.store.state[r].epoch <= n.store.state[r].epoch
  {
    hide MemPut, Inv, Starts, Claims, Works, Consistent;
    var c := step.runtime;
    match step
    case Start(_, s, newId) =>
      if Starts(w, c, s) {
        CallerNotAhead(w, c, s, Advancing(0), [Claim(c, s.runId, 0)]);
        PutStored(w.store, s, newId);
      }
    case Resume(_, s, newId) =>
      if Claims(w, c, s) {
        CallerNotAhead(w, c, s, Advancing(s.epoch), [Claim(c, s.runId, s.epoch)]);
        PutStored(w.store, s, newId);
      }
    case Work(_, s, newId) =>
      if Works(w, c, s) {
        CallerNotAhead(w, c, s, PhaseOf(w, Slot(c, s.runId)), []);
        PutStored(w.store, s, newId);
      }
    case _ =>
  }

  /** Fencing: once a run is stored past epoch e, then after any further steps of anyone a put of a
      copy at e or older is refused and the store stays as it is. */
  lemma StaleWriterFenced(w: World, steps: seq<Step>, s: RunState, newId: string)
    requires Inv(w) && s.runId in w.store.state && s.epoch < w.store.state[s.runId].epoch
    ensures MemPut(Run(w, steps).store, s, newId).Failure?
    ensures forall c, phase, claims :: Put(Run(w, steps), c, s, newId, phase, claims).store == Run(w, steps).store
  {
    EpochsNeverFall(w, steps, s.runId);
  }

  /** In every interleaving: at most one runtime drives a run; an epoch of a run is claimed at most once,
      its start included; and every executor call was made under a claim, by the runtime that holds it. */
  lemma OneRuntimePerEpoch(steps: seq<Step>)
    ensures var w := Run(START, steps);
      && OneDriver(w)
      && (forall i, j | 0 <= i < |w.claims| && 0 <= j < |w.claims| && w.claims[i].runId == w.claims[j].runId
            && w.claims[i].epoch == w.claims[j].epoch :: i == j)
      && (forall i | 0 <= i < |w.executions| ::
            Claim(w.executions[i].runtime, w.executions[i].runId, w.executions[i].claimed) in w.claims)
      && (forall i, j | 0 <= i < |w.executions| && 0 <= j < |w.claims| && w.executions[i].runId == w.claims[j].runId
            && w.executions[i].claimed == w.claims[j].epoch :: w.executions[i].runtime == w.claims[j].runtime)
  {
    InvAlways(START, steps);
    var w := Run(START, steps);
    forall i | 0 <= i < |w.executions|
      ensures Claim(w.executions[i].runtime, w.executions[i].runId, w.executions[i].claimed) in w.claims
    {
      assert Claimed(w, w.executions[i].runtime, w.executions[i].runId, w.executions[i].claimed);
    }
    forall i, j | 0 <= i < |w.executions| && 0 <= j < |w.claims| && w.executions[i].runId == w.claims[j].runId
            && w.executions[i].claimed == w.claims[j].epoch
      ensures w.executions[i].runtime == w.claims[j].runtime
    {
      var x := w.executions[i];
      var k :| 0 <= k < |w.claims| && w.claims[k] == Claim(x.runtime, x.runId, x.claimed);
    }
  }

  // ---- the loser of a claim ----

  /** A runtime at rest with an outdated copy of a run. */
  predicate Outdated(w: World, at: Slot) {
    && PhaseOf(w, at).Resting? && at in w.cache && at.runId in w.store.state
    && w.cache[at].epoch < w.store.state[at.runId].epoch
  }

  /** It stays so whatever anyone does: the copy is never loaded again, and no put of it is accepted. */
  lemma OutdatedStays(w: World, step: Step, at: Slot)
    requires Inv(w) && Outdated(w, at)
    ensures Outdated(Next(w, step), at)
    ensures |w.executions| <= |Next(w, step).executions| && Next(w, step).executions[..|w.executions|] == w.executions
    ensures forall i | |w.executions| <= i < |Next(w, step).executions| ::
      !(Next(w, step).executions[i].runtime == at.runtime && Next(w, step).executions[i].runId == at.runId)
  {
    hide MemPut, Inv, Consistent;
    var c := step.runtime;
    StepKeepsEpoch(w, step, at.runId);
    if step.Resume? && Claims(w, c, step.state) && Slot(c, step.state.runId) == at {
      CallerNotAhead(w, c, step.state, Advancing(step.state.epoch), [Claim(c, step.state.runId, step.state.epoch)]);
      PutStored(w.store, step.state, step.newId);
    }
  }

  /** The loser of a claim changes nothing in the store and never calls an executor for that run again,
      whatever anyone does from then on. */
  lemma LoserNeverExecutes(w: World, c: nat, s: RunState, newId: string, steps: seq<Step>)
    requires Inv(w) && Claims(w, c, s) && s.runId in w.store.state && s.epoch < w.store.state[s.runId].epoch
    ensures
      var lost := Next(w, Resume(c, s, newId));
      var later := Run(lost, steps);
      && lost.store == w.store && lost.executions == w.executions && |w.executions| <= |later.executions|
      && (forall i | |w.executions| <= i < |later.executions| ::
            !(later.executions[i].runtime == c && later.executions[i].runId == s.runId))
  {
    hide MemPut, Run, Consistent, Inv;
    CallerNotAhead(w, c, s, Advancing(s.epoch), [Claim(c, s.runId, s.epoch)]);
    PutStored(w.store, s, newId);
    RefusedPut(w, c, s, newId, Advancing(s.epoch), [Claim(c, s.runId, s.epoch)]);
    OutdatedForGood(Next(w, Resume(c, s, newId)), steps, Slot(c, s.runId));
  }

  lemma {:induction false} OutdatedForGood(w: World, steps: seq<Step>, at: Slot)
    requires Inv(w) && Outdated(w, at)
    ensures |w.executions| <= |Run(w, steps).executions|
    ensures forall i | |w.executions| <= i < |Run(w, steps).executions| ::
      !(Run(w, steps).executions[i].runtime == at.runtime && Run(w, steps).executions[i].runId == at.runId)
    decreases |steps|
  {
    hide Inv, Next, Outdated;
    if steps != [] {
      StepKeepsInv(w, steps[0]);
      OutdatedStays(w, steps[0], at);
      OutdatedForGood(Next(w, steps[0]), steps[1..], at);
      RunKeepsExecutions(Next(w, steps[0]), steps[1..]);
    }
  }

  /** Executions are only added. */
  lemma {:induction false} RunKeepsExecutions(w: World, steps: seq<Step>)
    ensures w.executions <= Run(w, steps).executions
    decreases |steps|
  {
    hide MemPut;
    if steps != [] {
      RunKeepsExecutions(Next(w, steps[0]), steps[1..]);
    }
  }

  // ---- the winner of a claim ----

  /** The winner of a claim drives the run: the store moves one epoch past the claimed one, the claim is on
      record, and the executor may be called at once if the run is RUNNING; its next put is accepted in
      turn. */
  lemma WinnerExecutes(w: World, c: nat, s: RunState, newId: string)
    requires Inv(w) && Claims(w, c, s) && s.runId in w.store.state && s.epoch == w.store.state[s.runId].epoch
    requires s.status == RUNNING
    ensures
      var won := Next(w, Resume(c, s, newId));
      var called := Next(won, Execute(c, s.runId));
      && s.runId in won.store.state && won.store.state[s.runId].epoch == s.epoch + 1
      && won.store.state[s.runId].status == RUNNING
      && won.claims == w.claims + [Claim(c, s.runId, s.epoch)]
      && called.executions == w.executions + [Execution(c, s.runId, s.epoch)]
  {
    hide MemPut, Inv, Consistent;
    CallerNotAhead(w, c, s, Advancing(s.epoch), [Claim(c, s.runId, s.epoch)]);
    PutStored(w.store, s, newId);
  }

  /** Whoever drives a run goes on putting it: every put of its newest copy is accepted and moves the store
      by one epoch, and the runtime drives the run for as long as it is live. */
  lemma DriverProceeds(w: World, c: nat, s: RunState, newId: string)
    requires Inv(w) && Works(w, c, s)
    ensures s.runId in w.store.state
    ensures
      var n := Next(w, Work(c, s, newId));
      && s.runId in n.store.state && n.store.state[s.runId].epoch == w.store.state[s.runId].epoch + 1
      && n.store.state[s.runId].status == s.status
      && PhaseOf(n, Slot(c, s.runId))
         == (if s.status == PENDING || s.status == RUNNING then PhaseOf(w, Slot(c, s.runId)) else Resting)
  {
    hide MemPut, Inv, Consistent, PhaseOf;
    CallerNotAhead(w, c, s, PhaseOf(w, Slot(c, s.runId)), []);
    DriverHoldsNewest(w, Slot(c, s.runId));
    PutStored(w.store, s, newId);
    PutPhases(w, c, s, newId, PhaseOf(w, Slot(c, s.runId)), []);
  }

  /** A new run is started by whoever starts it, and may execute once its second put has made it RUNNING. */
  lemma StarterExecutes(w: World, c: nat, s: RunState, newId: string, secondId: string)
    requires Inv(w) && Starts(w, c, s) && s.status == PENDING
    ensures
      var begun := Next(w, Start(c, s, newId));
      && s.runId in begun.store.state && Slot(c, s.runId) in begun.cache
      && var copy := begun.cache[Slot(c, s.runId)];
         var running := Next(begun, Work(c, copy.(status := RUNNING), secondId));
         && begun.store.state[s.runId].epoch == 1 && running.store.state[s.runId].epoch == 2
         && begun.claims == w.claims + [Claim(c, s.runId, 0)] && running.claims == begun.claims
         && Next(running, Execute(c, s.runId)).executions == w.executions + [Execution(c, s.runId, 0)]
  {
    hide MemPut, Inv, Consistent;
    var begun := Next(w, Start(c, s, newId));
    CallerNotAhead(w, c, s, Advancing(0), [Claim(c, s.runId, 0)]);
    PutStored(w.store, s, newId);
    StepKeepsInv(w, Start(c, s, newId));
    var running := begun.cache[Slot(c, s.runId)].(status := RUNNING);
    RunningConsistent(running);
    CallerNotAhead(begun, c, running, Advancing(0), []);
    PutStored(begun.store, running, secondId);
  }

  lemma RunningConsistent(s: RunState)
    requires s.status == RUNNING
    ensures Consistent(s)
  {
  }
}
