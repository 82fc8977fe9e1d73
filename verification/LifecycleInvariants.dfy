/** What every operation on a run keeps, and what therefore holds after any sequence of turns and
    resumes. */
module LifecycleInvariants {
  import opened Prelude
  import opened Values
  import opened RunStates
  import opened Sequences
  import opened Workflows
  import opened Interrupts
  import opened InterruptManager
  import opened Lifecycle

  /** How a run began: the checkpoint it was restored from, the step it was to execute first, the
      steps completed and the approval tokens held at that point. */
  datatype Origin = Origin(source: Option<string>, start: Option<string>, done: seq<string>, tokens: set<string>)

  // ---- checkpoints and the stored snapshot ----

  /** The j-th checkpoint carries epoch j, and its parent is the one before it. Ids grow in length, so
      they are distinct. */
  ghost predicate Linked(lineage: seq<RunState>, source: Option<string>, issued: nat) {
    && (forall i | 0 <= i < |lineage| :: LinkOk(lineage, source, issued, i))
    && (forall i, j | 0 <= i < j < |lineage| && lineage[i].checkpointId.Some? && lineage[j].checkpointId.Some? ::
          |lineage[i].checkpointId.value| < |lineage[j].checkpointId.value|)
  }

  predicate LinkOk(lineage: seq<RunState>, source: Option<string>, issued: nat, i: nat)
    requires i < |lineage|
  {
    && lineage[i].epoch == i + 1 && lineage[i].checkpointId.Some? && |lineage[i].checkpointId.value| <= issued
    && lineage[i].parentCheckpointId == (if i == 0 then source else lineage[i - 1].checkpointId)
  }

  predicate SameRecord(a: RunState, b: RunState) {
    a.runId == b.runId && a.threadId == b.threadId && a.epoch == b.epoch && a.checkpointId == b.checkpointId
  }

  ghost predicate Storage(o: Origin, k: Kernel) {
    && k.lineage != [] && k.stored == Some(k.lineage[|k.lineage| - 1])
    && Linked(k.lineage, o.source, k.issued) && SameRecord(k.state, k.stored.value)
  }

  /** At rest the cached state is the stored one. Inside the loop it is too, except that an answered
      interrupt's continuation may already be taken. */
  predicate Synced(k: Kernel) {
    k.stored.Some?
      && (k.state == k.stored.value || (k.phase.Advancing? && k.state == k.stored.value.(pendingResume := None)))
  }

  // ---- interrupt requests ----

  /** The only request of the run that can be pending is the open one; for as long as it is kept it
      carries the run's epoch. */
  ghost predicate OneOpen(desk: Store, r: string, epoch: int, issued: nat, open: Option<string>) {
    && (forall i | RequestOf(desk, r, i).Some? ::
          var q := RequestOf(desk, r, i).value;
          && q.runId == r && q.interruptId == i && |i| <= issued && q.epoch <= epoch
          && (q.status.Pending? ==> open == Some(i)))
    && (open.Some? && RequestOf(desk, r, open.value).Some? ==>
          && RequestOf(desk, r, open.value).value.epoch == epoch
          && !RequestOf(desk, r, open.value).value.status.Resolved?)
  }

  // ---- the story the audit trail tells ----

  predicate AuditOk(s: RunState, sum: Summary) {
    sum.status == s.status && sum.step == s.currentStep && sum.ended == Terminal(s.status) && !sum.late
  }

  function Here(current: Option<string>): set<string> {
    if current.Some? then {current.value} else {}
  }

  /** What also holds of every checkpoint: the run stands at a step of the class, and holds an approval
      token for no other step. */
  predicate Placed(setup: Setup, s: RunState) {
    && (s.currentStep.Some? ==> s.currentStep.value in Names(setup.workflow.steps))
    && s.approvedSteps <= Here(s.currentStep)
  }

  predicate PausesOk(setup: Setup, s: RunState) {
    && (s.status == WAITING_APPROVAL ==> s.currentStep.Some? && s.pendingApproval == s.currentStep)
    && (s.status == WAITING_INTERRUPT ==>
          && setup.maxPending > 0 && s.pendingInterruptId.Some? && s.currentStep.Some? && s.approvedSteps == {}
          && s.pendingResume.Some? && s.pendingResume.value.stepName == s.currentStep.value
          && Allowlisted(setup.workflow.steps, s.currentStep.value, s.pendingResume.value.handoff))
    && (s.status != WAITING_INTERRUPT ==> s.pendingInterruptId.None?)
    && (s.status == COMPLETED ==> s.currentStep.None?)
  }

  /** A handoff, if there is one, is to an agent the step's own agent may hand to. */
  predicate Allowlisted(steps: seq<Step>, step: string, handoff: Option<string>) {
    handoff.Some? ==>
      Find(steps, step).Some? && Find(steps, step).value.executor.Agent?
        && handoff.value in Find(steps, step).value.executor.handoffs
  }

  /** A step of that name exists and its executor is that agent. */
  predicate Lands(steps: seq<Step>, next: string, agent: string) {
    Find(steps, next).Some? && Find(steps, next).value.executor.Agent? && Find(steps, next).value.executor.name == agent
  }

  predicate HandoverOk(steps: seq<Step>, h: Handover) {
    h.from.Some? && Allowlisted(steps, h.from.value, Some(h.agent)) && Lands(steps, h.next, h.agent)
  }

  ghost predicate HandoffsOk(setup: Setup, sum: Summary) {
    forall i | 0 <= i < |sum.handoffs| :: HandoverOk(setup.workflow.steps, sum.handoffs[i])
  }

  /** Executions begun of a gated step never exceed its grants and the token the run started with; a
      run about to execute under a token has one to spare. */
  ghost predicate TokensOk(setup: Setup, o: Origin, s: RunState, sum: Summary, ready: bool) {
    forall step | step in setup.workflow.steps && Gated(step) ::
      sum.attempts[step.name]
        + (if ready && s.currentStep == Some(step.name) && step.name in s.approvedSteps then 1 else 0)
        <= sum.grants[Some(step.name)] + (if step.name in o.tokens then 1 else 0)
  }

  /** Appending each executed step that is not listed yet. */
  function AddAll(done: seq<string>, walk: seq<string>): seq<string> {
    if walk == [] then done else AddOnce(AddAll(done, walk[..|walk| - 1]), walk[|walk| - 1])
  }

  /** A declared transition from a step; None is the end. */
  predicate Edge(steps: seq<Step>, a: string, b: Option<string>) {
    && Find(steps, a).Some? && Find(steps, a).value.transition.Some?
    && b.GetOr(END_STEP) in Targets(Find(steps, a).value.transition.value)
  }

  ghost predicate Path(steps: seq<Step>, walk: seq<string>) {
    && (forall i | 0 <= i < |walk| :: walk[i] in Names(steps))
    && (forall i | 0 < i < |walk| :: Edge(steps, walk[i - 1], Some(walk[i])))
  }

  /** The run is about to execute a step: the first one, or a declared target of the last. */
  predicate Entering(steps: seq<Step>, start: Option<string>, walk: seq<string>, current: Option<string>) {
    if walk == [] then current == start else Edge(steps, walk[|walk| - 1], current)
  }

  /** The run stands at the step it has just executed. */
  predicate Leaving(walk: seq<string>, current: Option<string>) {
    walk != [] && current == Some(walk[|walk| - 1])
  }

  ghost predicate WalkOk(steps: seq<Step>, o: Origin, status: Status, walk: seq<string>, current: Option<string>) {
    && Path(steps, walk)
    && (walk != [] ==> o.start == Some(walk[0]))
    && match status
       case WAITING_INTERRUPT => Leaving(walk, current)
       case FAILED => Entering(steps, o.start, walk, current) || Leaving(walk, current)
       case _ => Entering(steps, o.start, walk, current)
  }

  /** No step is named "". */
  predicate WellNamed(setup: Setup) {
    "" !in Names(setup.workflow.steps)
  }

  /** A step named "" is executed again after its interrupt is answered: unless there is none, or none can
      be interrupted, it must be a declared target of its own. */
  predicate Walkable(setup: Setup) {
    WellNamed(setup) || setup.maxPending == 0 || Edge(setup.workflow.steps, "", Some(""))
  }

  ghost predicate Story(setup: Setup, o: Origin, s: RunState, sum: Summary, ready: bool) {
    && AuditOk(s, sum) && Placed(setup, s) && PausesOk(setup, s) && TokensOk(setup, o, s, sum, ready)
       && HandoffsOk(setup, sum)
    && s.completedSteps == AddAll(o.done, sum.walk)
    && (s.status == WAITING_INTERRUPT ==> Leaving(sum.walk, s.currentStep))
    && (Walkable(setup) ==> WalkOk(setup.workflow.steps, o, s.status, sum.walk, s.currentStep))
  }

  predicate PhaseOk(phase: Phase, status: Status) {
    match phase
    case Advancing(_) => status == RUNNING
    case Idle => status != RUNNING && status != PENDING
    case Crashed => false
  }

  ghost predicate CheckpointsPlaced(setup: Setup, lineage: seq<RunState>) {
    forall i | 0 <= i < |lineage| :: Placed(setup, lineage[i])
  }

  ghost predicate Inv(setup: Setup, o: Origin, k: Kernel) {
    && Storage(o, k) && Synced(k) && CheckpointsPlaced(setup, k.lineage)
    && OneOpen(k.desk, k.state.runId, k.state.epoch, k.issued, k.state.pendingInterruptId)
    && Story(setup, o, k.state, k.sum, k.phase.Advancing?)
    && PhaseOk(k.phase, k.state.status)
    && k.sum == Replay(k.trail)
  }

  // ---- saving ----

  /** The state a save leaves behind. */
  function Stamped(s: RunState, issued: nat): RunState {
    s.(parentCheckpointId := s.checkpointId, epoch := s.epoch + 1, checkpointId := Some(Uuid(issued)))
  }

  lemma ReplaySnoc(trail: seq<Event>, e: Event)
    ensures Replay(trail + [e]) == Read(Replay(trail), e)
  {
    assert (trail + [e])[..|trail|] == trail;
  }

  ghost predicate Savable(setup: Setup, o: Origin, k: Kernel, s: RunState) {
    && Storage(o, k) && CheckpointsPlaced(setup, k.lineage) && k.sum == Replay(k.trail) && !k.sum.ended && !k.sum.late
    && SameRecord(s, k.state) && Consistent(s) && Placed(setup, s)
  }

  function SavedKernel(k: Kernel, s: RunState): Kernel {
    var w := Stamped(s, k.issued);
    Emit(k.(state := w, stored := Some(w), lineage := k.lineage + [w], issued := k.issued + 1),
         CheckpointWritten(Uuid(k.issued), s.checkpointId))
  }

  lemma SaveIs(k: Kernel, s: RunState)
    requires Consistent(s) && k.stored.Some? && k.stored.value.epoch == s.epoch
    ensures Save(k, s) == Success(SavedKernel(k, s))
  {
    hide Emit;
  }

  lemma SaveWorks(setup: Setup, o: Origin, k: Kernel, s: RunState)
    requires Savable(setup, o, k, s)
    ensures Save(k, s).Success?
    ensures
      var n := Save(k, s).value;
      && Storage(o, n) && CheckpointsPlaced(setup, n.lineage) && n.sum == Replay(n.trail)
      && n.state == Stamped(s, k.issued) && n.stored == Some(n.state)
      && n.desk == k.desk && n.sum == k.sum && n.issued == k.issued + 1 && n.phase == k.phase
  {
    hide Save, Linked, Replay, Consistent, Placed, Uuid, Stamped;
    var w := Stamped(s, k.issued);
    SaveIs(k, s);
    ReplaySnoc(k.trail, CheckpointWritten(Uuid(k.issued), s.checkpointId));
    StampedIs(s, k.issued);
    LinkedEpochs(k.lineage, o.source, k.issued);
    LinkedGrows(k.lineage, o.source, k.issued, w);
    PlacedStamped(setup, s, k.issued);
  }

  lemma StampedIs(s: RunState, issued: nat)
    ensures var w := Stamped(s, issued);
      && w.epoch == s.epoch + 1 && w.checkpointId == Some(Uuid(issued)) && w.parentCheckpointId == s.checkpointId
      && w.runId == s.runId && w.status == s.status
  {
  }

  lemma PlacedStamped(setup: Setup, s: RunState, issued: nat)
    ensures Placed(setup, Stamped(s, issued)) == Placed(setup, s)
  {
  }

  lemma LinkedEpochs(lineage: seq<RunState>, source: Option<string>, issued: nat)
    requires Linked(lineage, source, issued) && lineage != []
    ensures lineage[|lineage| - 1].epoch == |lineage|
  {
    assert LinkOk(lineage, source, issued, |lineage| - 1);
  }

  lemma LinkedGrows(lineage: seq<RunState>, source: Option<string>, issued: nat, w: RunState)
    requires Linked(lineage, source, issued) && lineage != []
    requires w.epoch == |lineage| + 1 && w.checkpointId == Some(Uuid(issued))
    requires w.parentCheckpointId == lineage[|lineage| - 1].checkpointId
    ensures Linked(lineage + [w], source, issued + 1)
  {
    var l, more := lineage + [w], issued + 1;
    forall i | 0 <= i < |l| ensures LinkOk(l, source, more, i) {
      if i < |lineage| {
        assert LinkOk(lineage, source, issued, i);
      }
    }
    forall i, j | 0 <= i < j < |l| && l[i].checkpointId.Some? && l[j].checkpointId.Some?
      ensures |l[i].checkpointId.value| < |l[j].checkpointId.value|
    {
      assert LinkOk(lineage, source, issued, i);
    }
  }

  // ---- the interrupt desk ----

  lemma DeskRises(desk: Store, r: string, epoch: int, issued: nat, higher: int, more: nat)
    requires OneOpen(desk, r, epoch, issued, None) && epoch <= higher && issued <= more
    ensures OneOpen(desk, r, higher, more, None)
  {
    hide RequestOf;
  }

  lemma DeskBumped(desk: Store, r: string, epoch: int, issued: nat, open: Option<string>)
    requires OneOpen(desk, r, epoch, issued, open)
    ensures OneOpen(Bumped(desk, r), r, epoch, issued, open)
  {
    hide RequestOf;
    forall i ensures RequestOf(Bumped(desk, r), r, i) == RequestOf(desk, r, i) {
      BumpedLookup(desk, r, r, i);
    }
  }

  lemma DeskPolled(desk: Store, r: string, epoch: int, issued: nat, open: Option<string>, now: int)
    requires OneOpen(desk, r, epoch, issued, open)
    ensures OneOpen(AgedRun(desk, r, now), r, epoch, issued, open)
  {
    hide RequestOf, AgedRun;
    forall i ensures
      var q := RequestOf(desk, r, i);
      RequestOf(AgedRun(desk, r, now), r, i) == if q.Some? then Some(Aged(q.value, now)) else None
    {
      AgedLookup(desk, r, now, r, i);
    }
  }

  lemma {:induction false} NothingKept(ids: seq<string>, at: Table)
    ensures Collect(Keep(ids, {}), at) == []
  {
    if ids != [] {
      NothingKept(ids[1..], at);
    }
  }

  /** With no request open nothing counts against the limit. */
  lemma NonePending(desk: Store, r: string, epoch: int, issued: nat, now: int)
    requires OneOpen(desk, r, epoch, issued, None)
    ensures PendingIn(desk, r, Some(epoch), now) == []
  {
    var d := Listed(desk, r);
    forall i | i in d.at ensures !Live(d.at[i], Some(epoch), now) {
      assert RequestOf(desk, r, i) == Some(d.at[i]);
    }
    assert LiveIds(d.at, Some(epoch), now) == {};
    NothingKept(d.order, d.at);
  }

  /** A creation from a run with nothing open is refused exactly when the limit is zero; once its epoch
      is set to the saved run's, the new request is the open one. */
  lemma DeskOpens(desk: Store, r: string, step: string, ttl: int, epoch: int, issued: nat, limit: nat, now: int,
                  higher: int)
    requires OneOpen(desk, r, epoch, issued, None) && epoch < higher
    ensures
      var c := Created(desk, r, step, ttl, Some(epoch), Some(limit), now, Uuid(issued));
      && (c.1.Success? <==> limit > 0)
      && (c.1.Failure? ==> OneOpen(c.0, r, epoch, issued, None))
      && (c.1.Success? ==> c.1.value == Request(Uuid(issued), r, step, epoch, now, now + ttl, Pending))
      && (c.1.Success? ==>
            && OneOpen(Saved(c.0, c.1.value.(epoch := higher)), r, higher, issued + 1, Some(Uuid(issued)))
            && RequestOf(Saved(c.0, c.1.value.(epoch := higher)), r, Uuid(issued)).Some?)
  {
    hide RequestOf, AgedRun, LiveRequests, Saved, PendingIn;
    NonePending(desk, r, epoch, issued, now);
    var q := Request(Uuid(issued), r, step, epoch, now, now + ttl, Pending);
    DeskPolled(desk, r, epoch, issued, None, now);
    var aged := AgedRun(desk, r, now);
    var n := Saved(Saved(aged, q), q.(epoch := higher));
    forall i ensures RequestOf(n, r, i) == if i == q.interruptId then Some(q.(epoch := higher))
      else RequestOf(aged, r, i) {
      SavedLookup(aged, q, r, i);
      SavedLookup(Saved(aged, q), q.(epoch := higher), r, i);
    }
  }

  /** An answer resolves the open request or none: under another request's id or another epoch it is
      refused, and a refused answer leaves the desk as it was but for an expiry. */
  lemma DeskSettles(desk: Store, r: string, epoch: int, issued: nat, open: string, id: string, given: int, now: int)
    requires OneOpen(desk, r, epoch, issued, Some(open))
    ensures
      var c := Settled(desk, r, id, Some(given), now);
      && (c.1.Success? <==> RequestOf(desk, r, id).Some? && Live(RequestOf(desk, r, id).value, Some(given), now))
      && (c.1.Success? ==> id == open && given == epoch && OneOpen(c.0, r, epoch, issued, None))
      && (c.1.Failure? ==> OneOpen(c.0, r, epoch, issued, Some(open)))
      && (c.1.Failure? && RequestOf(desk, r, open).Some? ==> RequestOf(c.0, r, open).Some?)
  {
    hide RequestOf, Saved;
    var q := RequestOf(desk, r, id);
    if q.Some? {
      var expired, resolved := q.value.(status := Expired), q.value.(status := Resolved);
      forall i ensures
        && RequestOf(Saved(desk, expired), r, i) == (if i == id then Some(expired) else RequestOf(desk, r, i))
        && RequestOf(Saved(desk, resolved), r, i) == (if i == id then Some(resolved) else RequestOf(desk, r, i))
      {
        SavedLookup(desk, expired, r, i);
        SavedLookup(desk, resolved, r, i);
      }
    }
  }

  /** The request a run at rest waits on is there. */
  predicate Asked(k: Kernel) {
    k.phase.Idle? && k.state.status == WAITING_INTERRUPT ==>
      k.state.pendingInterruptId.Some? && RequestOf(k.desk, k.state.runId, k.state.pendingInterruptId.value).Some?
  }

  /** What listing, looking, sweeping and clearing may do to a request: it stays, it is found expired, or it
      goes with a sweep that finds it expired or a clearing that finds it expired or settled. */
  predicate Fades(was: Option<Request>, left: Option<Request>, l: Label) {
    match was
    case None => left.None?
    case Some(q) =>
      || left == Some(q)
      || (q.status.Pending? && left == Some(q.(status := Expired)))
      || (left.None? && ((l.Sweep? && Due(q, l.now)) || (l.Clear? && !Live(q, None, l.now))))
  }

  /** Every request is filed under its run and id. */
  ghost predicate Filed(desk: Store, r: string) {
    forall i | RequestOf(desk, r, i).Some? ::
      RequestOf(desk, r, i).value.runId == r && RequestOf(desk, r, i).value.interruptId == i
  }

  lemma TendedFades(desk: Store, r: string, l: Label, i: string)
    requires Filed(desk, r)
    ensures Fades(RequestOf(desk, r, i), RequestOf(Tended(desk, r, l), r, i), l)
  {
    hide RequestOf, Saved, AgedRun, Swept, Restrict, WithRun, LiveIds, Live, Due;
    match l
    case Poll(now) => AgedLookup(desk, r, now, r, i);
    case Look(id, now) =>
      if RequestOf(desk, r, id).Some? {
        SavedLookup(desk, RequestOf(desk, r, id).value.(status := Expired), r, i);
      }
    case Sweep(now) => SweptLookup(desk, now, r, i);
    case Clear(now) =>
      if r in desk.requests {
        ShrunkLookup(desk, r, LiveIds(desk.requests[r].at, None, now), r, i);
        if RequestOf(desk, r, i).Some? {
          LiveOf(desk, r, now, i);
        }
      }
    case _ =>
  }

  lemma DeskFiled(desk: Store, r: string, epoch: int, issued: nat, open: Option<string>)
    requires OneOpen(desk, r, epoch, issued, open)
    ensures Filed(desk, r)
  {
    hide RequestOf;
  }

  lemma LiveOf(desk: Store, r: string, now: int, i: string)
    requires r in desk.requests && RequestOf(desk, r, i).Some?
    ensures i in LiveIds(desk.requests[r].at, None, now) <==> Live(RequestOf(desk, r, i).value, None, now)
  {
  }

  lemma DeskTended(desk: Store, r: string, epoch: int, issued: nat, open: Option<string>, l: Label)
    requires OneOpen(desk, r, epoch, issued, open)
    ensures OneOpen(Tended(desk, r, l), r, epoch, issued, open)
  {
    hide RequestOf, Tended, Live, Due;
    forall i ensures Fades(RequestOf(desk, r, i), RequestOf(Tended(desk, r, l), r, i), l) {
      TendedFades(desk, r, l, i);
    }
  }

  // ---- coming back to the caller, going on in the loop ----

  lemma StoryStamped(setup: Setup, o: Origin, s: RunState, issued: nat, sum: Summary, ready: bool)
    requires Story(setup, o, s, sum, ready)
    ensures Story(setup, o, Stamped(s, issued), sum, ready)
  {
    hide WalkOk, AddAll, Names;
  }

  lemma EmitReplays(k: Kernel, e: Event)
    requires k.sum == Replay(k.trail)
    ensures Emit(k, e).sum == Replay(Emit(k, e).trail)
  {
    ReplaySnoc(k.trail, e);
  }

  /** A save, one event and the run at rest. */
  lemma Returns(setup: Setup, o: Origin, k: Kernel, s: RunState, e: Event)
    requires Savable(setup, o, k, s) && OneOpen(k.desk, s.runId, s.epoch, k.issued, None)
    requires Story(setup, o, s, Read(k.sum, e), false) && PhaseOk(Idle, s.status) && s.status != WAITING_INTERRUPT
    ensures Save(k, s).Success? && Inv(setup, o, Emit(Save(k, s).value, e).(phase := Idle))
  {
    hide Savable, Save, Storage, Linked, Story, Replay, OneOpen, Read, Stamped, PhaseOk, CheckpointsPlaced;
    SaveWorks(setup, o, k, s);
    var n := Save(k, s).value;
    EmitReplays(n, e);
    StoryStamped(setup, o, s, k.issued, Read(k.sum, e), false);
    DeskRises(k.desk, s.runId, s.epoch, k.issued, s.epoch + 1, k.issued + 1);
    StampedIs(s, k.issued);
    StoryUnopened(setup, o, n.state, Read(k.sum, e));
    StorageEmitted(o, n, e, Idle);
  }

  lemma StoryUnopened(setup: Setup, o: Origin, s: RunState, sum: Summary)
    requires Story(setup, o, s, sum, false) && s.status != WAITING_INTERRUPT
    ensures s.pendingInterruptId == None
  {
  }

  lemma StorageEmitted(o: Origin, k: Kernel, e: Event, phase: Phase)
    requires Storage(o, k)
    ensures Storage(o, Emit(k, e).(phase := phase)) && Storage(o, k.(phase := phase))
  {
    hide Linked;
  }

  /** A save after which the loop goes on. */
  lemma Continues(setup: Setup, o: Origin, k: Kernel, s: RunState, payload: Value)
    requires Savable(setup, o, k, s) && OneOpen(k.desk, s.runId, s.epoch, k.issued, None)
    requires Story(setup, o, s, k.sum, true) && s.status == RUNNING
    ensures Save(k, s).Success? && Inv(setup, o, Save(k, s).value.(phase := Advancing(payload)))
  {
    hide Savable, Save, Storage, Linked, Story, Replay, OneOpen, Stamped, CheckpointsPlaced;
    SaveWorks(setup, o, k, s);
    var n := Save(k, s).value;
    StoryStamped(setup, o, s, k.issued, k.sum, true);
    DeskRises(k.desk, s.runId, s.epoch, k.issued, s.epoch + 1, k.issued + 1);
    StampedIs(s, k.issued);
    StoryUnopenedRunning(setup, o, n.state, k.sum);
    StorageEmitted(o, n, RunFailed, Advancing(payload));
  }

  lemma StoryUnopenedRunning(setup: Setup, o: Origin, s: RunState, sum: Summary)
    requires Story(setup, o, s, sum, true) && s.status != WAITING_INTERRUPT
    ensures s.pendingInterruptId == None
  {
  }

  // ---- the moves of the loop ----

  /** The run inside an operation: everything but the synchrony of cache and store, the audit status
      and the place on the walk. */
  ghost predicate Loose(setup: Setup, o: Origin, k: Kernel) {
    Unrecorded(setup, o, k) && k.state.completedSteps == AddAll(o.done, k.sum.walk)
  }

  /** The same while the last execution is not recorded yet. */
  ghost predicate Unrecorded(setup: Setup, o: Origin, k: Kernel) {
    && Storage(o, k) && CheckpointsPlaced(setup, k.lineage) && k.sum == Replay(k.trail) && !k.sum.ended && !k.sum.late
    && OneOpen(k.desk, k.state.runId, k.state.epoch, k.issued, None)
    && Placed(setup, k.state) && k.state.pendingInterruptId.None?
    && TokensOk(setup, o, k.state, k.sum, false) && HandoffsOk(setup, k.sum)
    && (Walkable(setup) ==> WalkBase(setup.workflow.steps, o, k.sum.walk))
  }

  predicate StoredRunning(k: Kernel) {
    k.stored.Some? && k.stored.value.status == RUNNING && k.stored.value.pendingInterruptId.None?
  }

  /** The run is abandoned, RUNNING for good in the cache and in the store; what it did so far stands. */
  ghost predicate Wrecked(setup: Setup, o: Origin, k: Kernel) {
    Unrecorded(setup, o, k) && k.state.status == RUNNING && StoredRunning(k)
  }

  lemma WreckedLoose(setup: Setup, o: Origin, k: Kernel, phase: Phase)
    requires Loose(setup, o, k) && k.state.status == RUNNING && StoredRunning(k)
    ensures Wrecked(setup, o, k) && Wrecked(setup, o, k.(phase := phase))
  {
    hide Linked, OneOpen, Replay, CheckpointsPlaced, Placed, TokensOk, HandoffsOk, WalkBase, Walkable;
  }

  lemma WreckedPhase(setup: Setup, o: Origin, k: Kernel, phase: Phase)
    requires Wrecked(setup, o, k)
    ensures Wrecked(setup, o, k.(phase := phase))
  {
    hide Linked, OneOpen, Replay, CheckpointsPlaced, Placed, TokensOk, HandoffsOk, WalkBase, Walkable;
  }

  ghost predicate WalkBase(steps: seq<Step>, o: Origin, walk: seq<string>) {
    Path(steps, walk) && (walk != [] ==> o.start == Some(walk[0]))
  }

  lemma CompleteWorks(setup: Setup, o: Origin, k: Kernel)
    requires Loose(setup, o, k) && k.sum.step == None && k.state.approvedSteps == {}
    requires Walkable(setup) ==> Entering(setup.workflow.steps, o.start, k.sum.walk, None)
    ensures Complete(k).Success? && Inv(setup, o, Complete(k).value) && Complete(k).value.state.status == COMPLETED
  {
    hide Storage, Linked, Path, OneOpen, Replay, Save, Inv, AddAll, CheckpointsPlaced, Stamped;
    var s := k.state.(currentStep := None, status := COMPLETED);
    Returns(setup, o, k, s, RunCompleted);
    SaveWorks(setup, o, k, s);
    StampedIs(s, k.issued);
  }

  lemma FailWorks(setup: Setup, o: Origin, k: Kernel, error: string)
    requires Loose(setup, o, k) && k.sum.step == k.state.currentStep
    requires Walkable(setup) ==>
      Entering(setup.workflow.steps, o.start, k.sum.walk, k.state.currentStep)
        || Leaving(k.sum.walk, k.state.currentStep)
    ensures FailRun(k, error).Success? && Inv(setup, o, FailRun(k, error).value)
      && FailRun(k, error).value.state.status == FAILED
  {
    hide Storage, Linked, Path, OneOpen, Replay, Save, Inv, AddAll, CheckpointsPlaced, Stamped, Entering, Leaving,
      Names;
    var s := k.state.(status := FAILED, error := Some(error));
    Returns(setup, o, k, s, RunFailed);
    SaveWorks(setup, o, k, s);
    StampedIs(s, k.issued);
  }

  lemma AskWorks(setup: Setup, o: Origin, k: Kernel, step: string, payload: Value)
    requires Loose(setup, o, k) && k.sum.step == k.state.currentStep == Some(step)
    requires Walkable(setup) ==> Entering(setup.workflow.steps, o.start, k.sum.walk, Some(step))
    ensures AskApproval(k, step, payload).Success? && Inv(setup, o, AskApproval(k, step, payload).value)
    ensures AskApproval(k, step, payload).value.state.status == WAITING_APPROVAL
  {
    hide Storage, Linked, Path, OneOpen, Replay, Save, Inv, AddAll, CheckpointsPlaced, Stamped, Entering, Names;
    var s := k.state.(pendingApproval := Some(step), status := WAITING_APPROVAL, pendingInput := Some(payload));
    Returns(setup, o, k, s, ApprovalRequested(step));
    SaveWorks(setup, o, k, s);
    StampedIs(s, k.issued);
  }

  lemma MoveWorks(setup: Setup, o: Origin, k: Kernel, next: string, payload: Value)
    requires Loose(setup, o, k) && k.sum.step == Some(next) && k.sum.status == k.state.status == RUNNING
      && k.state.approvedSteps == {}
    requires next in Names(setup.workflow.steps)
    requires Walkable(setup) ==> Entering(setup.workflow.steps, o.start, k.sum.walk, Some(next))
    ensures
      var s := k.state.(currentStep := Some(next));
      Save(k, s).Success? && Inv(setup, o, Save(k, s).value.(phase := Advancing(payload)))
  {
    hide Storage, Linked, Path, OneOpen, Replay, Save, Inv, AddAll, CheckpointsPlaced, Stamped, Entering, Names;
    Continues(setup, o, k, k.state.(currentStep := Some(next)), payload);
  }

  predicate Quiet(e: Event) {
    || e.StepEntered? || e.PolicyDenied? || e.HandoffAccepted? || e.HandoffRejected? || e.TransitionChosen?
    || e.ApprovalRejected? || e.InterruptResolved?
  }

  lemma QuietRead(sum: Summary, e: Event)
    requires Quiet(e)
    ensures
      var n := Read(sum, e);
      && n.walk == sum.walk && n.attempts == sum.attempts && n.grants == sum.grants
      && n.ended == sum.ended && n.late == (sum.late || sum.ended)
      && n.handoffs == sum.handoffs + (if e.HandoffAccepted? then [Handover(LastOf(sum.walk), e.agent, e.next)] else [])
      && (!e.TransitionChosen? ==> n.step == sum.step) && (!e.InterruptResolved? ==> n.status == sum.status)
  {
  }

  lemma LooseEmit(setup: Setup, o: Origin, k: Kernel, e: Event)
    requires Loose(setup, o, k) && Quiet(e)
    requires e.HandoffAccepted? ==> HandoverOk(setup.workflow.steps, Handover(LastOf(k.sum.walk), e.agent, e.next))
    ensures Loose(setup, o, Emit(k, e))
    ensures Emit(k, e).sum.walk == k.sum.walk
    ensures !e.TransitionChosen? ==> Emit(k, e).sum.step == k.sum.step
    ensures !e.InterruptResolved? ==> Emit(k, e).sum.status == k.sum.status
  {
    hide Linked, WalkBase, OneOpen, Replay, AddAll, CheckpointsPlaced, Placed, Read, HandoverOk, LastOf, Storage,
      Walkable;
    EmitReplays(k, e);
    EmitStorage(o, k, e);
    QuietRead(k.sum, e);
  }

  /** From a step just executed, a routed transition ends the run or enters a declared target. */
  lemma TransitWorks(setup: Setup, o: Origin, k: Kernel, step: string, next: string, handoff: Option<string>,
                     payload: Value)
    requires Loose(setup, o, k) && k.sum.status == k.state.status == RUNNING && k.state.approvedSteps == {}
    requires next == END_STEP || next in Names(setup.workflow.steps)
    requires Leaving(k.sum.walk, Some(step)) && (Walkable(setup) ==> Edge(setup.workflow.steps, step, Some(next)))
    requires handoff.Some? ==> HandoverOk(setup.workflow.steps, Handover(Some(step), handoff.value, next))
    ensures Transit(k, step, next, handoff, payload).Success?
      && Inv(setup, o, Transit(k, step, next, handoff, payload).value)
    ensures Asked(Transit(k, step, next, handoff, payload).value)
  {
    hide Loose, Inv, Emit, Complete, Save, Find, Targets, Names;
    var k1 := if handoff.Some? then Emit(k, HandoffAccepted(handoff.value, next)) else k;
    if handoff.Some? {
      LooseEmit(setup, o, k, HandoffAccepted(handoff.value, next));
      EmitState(k, HandoffAccepted(handoff.value, next));
    }
    var e := TransitionChosen(step, next);
    LooseEmit(setup, o, k1, e);
    EmitState(k1, e);
    var k2 := Emit(k1, e);
    if next == END_STEP {
      CompleteWorks(setup, o, k2);
    } else {
      MoveWorks(setup, o, k2, next, payload);
    }
  }

  lemma EmitState(k: Kernel, e: Event)
    ensures Emit(k, e) == k.(trail := k.trail + [e], sum := Read(k.sum, e))
  {
  }

  // ---- one loop iteration ----

  ghost predicate InLoop(setup: Setup, o: Origin, k: Kernel) {
    Inv(setup, o, k) && k.phase.Advancing?
  }

  lemma LoopIsLoose(setup: Setup, o: Origin, k: Kernel)
    requires InLoop(setup, o, k)
    ensures Loose(setup, o, k) && k.state.status == k.sum.status == RUNNING && k.sum.step == k.state.currentStep
    ensures TokensOk(setup, o, k.state, k.sum, true) && StoredRunning(k)
    ensures Walkable(setup) ==> Entering(setup.workflow.steps, o.start, k.sum.walk, k.state.currentStep)
  {
    hide Linked, Path, OneOpen, Replay, AddAll, CheckpointsPlaced, Placed, Entering;
  }

  lemma EmitStorage(o: Origin, k: Kernel, e: Event)
    requires Storage(o, k)
    ensures Storage(o, Emit(k, e))
  {
    hide Linked, Read;
  }

  /** An execution may begin: a gated step holds its token, which pays for the attempt. */
  lemma StartWorks(setup: Setup, o: Origin, k: Kernel, step: Step)
    requires Loose(setup, o, k) && TokensOk(setup, o, k.state, k.sum, true)
    requires Distinct(setup.workflow.steps) && step in setup.workflow.steps && k.state.currentStep == Some(step.name)
    requires !RequiresApproval(step, k.state)
    ensures Loose(setup, o, Emit(k, ExecutionStarted(step.name)))
  {
    hide Linked, WalkBase, OneOpen, Replay, AddAll, CheckpointsPlaced, Placed, Storage, Gated;
    var n := Emit(k, ExecutionStarted(step.name));
    EmitReplays(k, ExecutionStarted(step.name));
    EmitStorage(o, k, ExecutionStarted(step.name));
    forall other | other in setup.workflow.steps && Gated(other)
      ensures n.sum.attempts[other.name] <= n.sum.grants[Some(other.name)] + (if other.name in o.tokens then 1 else 0)
    {
      SameNameSameStep(setup.workflow.steps, step, other);
    }
  }

  lemma SameNameSameStep(steps: seq<Step>, a: Step, b: Step)
    requires Distinct(steps) && a in steps && b in steps
    ensures a.name == b.name ==> a == b
  {
    FindDistinct(steps, a);
    FindDistinct(steps, b);
  }

  lemma WalkGrows(steps: seq<Step>, o: Origin, walk: seq<string>, step: string)
    requires WalkBase(steps, o, walk) && Entering(steps, o.start, walk, Some(step)) && step in Names(steps)
    ensures WalkBase(steps, o, walk + [step])
  {
    hide Edge, Names;
    var more := walk + [step];
    assert forall i | 0 <= i < |walk| :: more[i] == walk[i];
  }

  lemma AddAllGrows(done: seq<string>, walk: seq<string>, step: string)
    ensures AddAll(done, walk + [step]) == AddOnce(AddAll(done, walk), step)
  {
    hide AddOnce;
    assert (walk + [step])[..|walk|] == walk;
  }

  lemma ExecutedWorks(setup: Setup, o: Origin, k: Kernel, step: Step)
    requires Loose(setup, o, k) && k.state.currentStep == Some(step.name)
    requires Walkable(setup) ==> Entering(setup.workflow.steps, o.start, k.sum.walk, Some(step.name))
    ensures
      var n := Emit(k, ExecutionCompleted(step.name));
      && Unrecorded(setup, o, n) && n.sum.walk == k.sum.walk + [step.name]
      && AddOnce(n.state.completedSteps, step.name) == AddAll(o.done, n.sum.walk)
         && Leaving(n.sum.walk, Some(step.name))
  {
    hide Linked, OneOpen, Replay, CheckpointsPlaced, Storage, WalkBase, AddAll, AddOnce, Walkable, Entering, Names;
    EmitReplays(k, ExecutionCompleted(step.name));
    EmitStorage(o, k, ExecutionCompleted(step.name));
    AddAllGrows(o.done, k.sum.walk, step.name);
    if Walkable(setup) {
      WalkGrows(setup.workflow.steps, o, k.sum.walk, step.name);
    }
  }

  lemma RecordWorks(setup: Setup, o: Origin, k: Kernel, step: Step, output: Value, command: Option<Command>)
    requires Unrecorded(setup, o, k) && k.state.currentStep == Some(step.name) && k.state.status == RUNNING
    requires AddOnce(k.state.completedSteps, step.name) == AddAll(o.done, k.sum.walk)
    requires Record(setup, k, step, output, command).Success?
    ensures
      var n := Record(setup, k, step, output, command).value;
      && Loose(setup, o, n) && n.sum == k.sum && n.state.status == RUNNING && n.state.approvedSteps == {}
      && n.state.currentStep == k.state.currentStep && n.phase == k.phase && StoredRunning(n)
  {
    hide Linked, OneOpen, Replay, CheckpointsPlaced, Save, AddAll, WalkBase, Names;
    var update := if command.Some? then command.value.stateUpdate else map[];
    var s := Recorded(k.state, step, output, ApplyUpdate(setup, k.state.channels, update).value);
    SaveWorks(setup, o, k, s);
    DeskRises(k.desk, s.runId, s.epoch, k.issued, s.epoch + 1, k.issued + 1);
  }

  function Waiting(s: RunState, id: string, c: Continuation): RunState {
    s.(pendingInterruptId := Some(id), status := WAITING_INTERRUPT, pendingResume := Some(c))
  }

  lemma PauseStory(setup: Setup, o: Origin, k: Kernel, step: string, id: string, epoch: int, c: Continuation)
    requires Loose(setup, o, k) && k.state.approvedSteps == {} && c.stepName == step && setup.maxPending > 0
    requires Allowlisted(setup.workflow.steps, step, c.handoff)
    requires k.state.currentStep == k.sum.step == Some(step)
    requires Leaving(k.sum.walk, Some(step))
    ensures
      var s := Waiting(k.state, id, c);
      && Story(setup, o, s, Read(k.sum, InterruptRequested(step, id, epoch)), false)
      && Placed(setup, s) && SameRecord(s, k.state) && s.status == WAITING_INTERRUPT && s.pendingInterruptId == Some(id)
  {
    hide Linked, OneOpen, Replay, CheckpointsPlaced, AddAll, Path, Names, Leaving, Storage;
  }

  lemma PauseIs(setup: Setup, k: Kernel, step: Step, output: Value, handoff: Option<string>, command: Command, now: int,
                desk: Store, q: Request)
    requires command.interrupt.Some?
    requires Created(k.desk, k.state.runId, step.name, command.interrupt.value.ttlSeconds.GetOr(setup.defaultTtl),
                     Some(k.state.epoch), Some(setup.maxPending), now, Uuid(k.issued)) == (desk, Success(q))
    ensures
      var saved := Save(k.(desk := desk, issued := k.issued + 1),
                        Waiting(k.state, q.interruptId, Continuation(step.name, output, handoff, command)));
      saved.Success? && saved.value.state.epoch == q.epoch + 1 && saved.value.desk == desk ==>
        Pause(setup, k, step, output, handoff, command, now) ==
          Success(Emit(saved.value.(desk := Saved(desk, q.(epoch := q.epoch + 1))),
                       InterruptRequested(step.name, q.interruptId, q.epoch + 1)).(phase := Idle))
  {
    hide Created, Save, Saved, Emit;
  }

  /** A paused run waits on a request of its own epoch; the creation is refused only under limit 0. */
  lemma PauseWorks(setup: Setup, o: Origin, k: Kernel, step: Step, output: Value, handoff: Option<string>,
                   command: Command, now: int)
    requires Loose(setup, o, k) && k.state.status == RUNNING && k.state.approvedSteps == {} && command.interrupt.Some?
    requires k.state.currentStep == k.sum.step == Some(step.name)
    requires Leaving(k.sum.walk, Some(step.name))
    requires Allowlisted(setup.workflow.steps, step.name, handoff)
    ensures Pause(setup, k, step, output, handoff, command, now).Success? <==> setup.maxPending > 0
    ensures setup.maxPending == 0 && StoredRunning(k) ==>
      Wrecked(setup, o, Pause(setup, k, step, output, handoff, command, now).error)
    ensures setup.maxPending > 0 ==>
      Inv(setup, o, Pause(setup, k, step, output, handoff, command, now).value)
      && Asked(Pause(setup, k, step, output, handoff, command, now).value)
  {
    hide Inv, Save, Created, Saved, Stamped, Waiting, SameRecord, Placed, Emit, Story, OneOpen, Leaving;
    var ttl := command.interrupt.value.ttlSeconds.GetOr(setup.defaultTtl);
    var st := k.state;
    LooseDesk(setup, o, k);
    DeskOpens(k.desk, st.runId, step.name, ttl, st.epoch, k.issued, setup.maxPending, now, st.epoch + 1);
    var c := Created(k.desk, st.runId, step.name, ttl, Some(st.epoch), Some(setup.maxPending), now, Uuid(k.issued));
    if setup.maxPending > 0 {
      var q, later := c.1.value, Continuation(step.name, output, handoff, command);
      PauseStory(setup, o, k, step.name, Uuid(k.issued), st.epoch + 1, later);
      var s := Waiting(st, Uuid(k.issued), later);
      SameRecordIs(s, st);
      PauseSaves(setup, o, k, s, c.0, q, InterruptRequested(step.name, Uuid(k.issued), st.epoch + 1));
      PauseIs(setup, k, step, output, handoff, command, now, c.0, q);
    } else {
      LooseOver(setup, o, k, c.0);
      if StoredRunning(k) {
        WreckedLoose(setup, o, k.(desk := c.0), Crashed);
      }
      PauseRefused(setup, k, step, output, handoff, command, now, c.0);
    }
  }

  lemma LooseOver(setup: Setup, o: Origin, k: Kernel, desk: Store)
    requires Loose(setup, o, k) && OneOpen(desk, k.state.runId, k.state.epoch, k.issued, None)
    ensures Loose(setup, o, k.(desk := desk))
  {
    hide Linked, OneOpen, Replay, CheckpointsPlaced, Placed, TokensOk, HandoffsOk, WalkBase, Walkable;
  }

  lemma PauseRefused(setup: Setup, k: Kernel, step: Step, output: Value, handoff: Option<string>, command: Command,
                     now: int, desk: Store)
    requires command.interrupt.Some?
    requires
      var c := Created(k.desk, k.state.runId, step.name, command.interrupt.value.ttlSeconds.GetOr(setup.defaultTtl),
                       Some(k.state.epoch), Some(setup.maxPending), now, Uuid(k.issued));
      c.1.Failure? && c.0 == desk
    ensures Pause(setup, k, step, output, handoff, command, now) == Failure(k.(desk := desk))
  {
    hide Created, Save, Saved, Emit;
  }

  lemma LooseDesk(setup: Setup, o: Origin, k: Kernel)
    requires Loose(setup, o, k)
    ensures OneOpen(k.desk, k.state.runId, k.state.epoch, k.issued, None)
  {
    hide OneOpen;
  }

  lemma SameRecordIs(a: RunState, b: RunState)
    requires SameRecord(a, b)
    ensures a.runId == b.runId && a.epoch == b.epoch && a.checkpointId == b.checkpointId
  {
  }

  lemma PauseSaves(setup: Setup, o: Origin, k: Kernel, s: RunState, desk: Store, q: Request, e: Event)
    requires Loose(setup, o, k) && SameRecord(s, k.state) && Placed(setup, s)
    requires s.status == WAITING_INTERRUPT && s.pendingInterruptId == Some(Uuid(k.issued)) && e.InterruptRequested?
    requires Story(setup, o, s, Read(k.sum, e), false)
    requires OneOpen(Saved(desk, q.(epoch := s.epoch + 1)), s.runId, s.epoch + 1, k.issued + 1, Some(Uuid(k.issued)))
    requires RequestOf(Saved(desk, q.(epoch := s.epoch + 1)), s.runId, Uuid(k.issued)).Some?
    ensures
      var k0 := k.(desk := desk, issued := k.issued + 1);
      && Save(k0, s).Success? && Save(k0, s).value.state.epoch == s.epoch + 1 && Save(k0, s).value.desk == desk
      && Inv(setup, o, Emit(Save(k0, s).value.(desk := Saved(desk, q.(epoch := s.epoch + 1))), e).(phase := Idle))
      && Asked(Emit(Save(k0, s).value.(desk := Saved(desk, q.(epoch := s.epoch + 1))), e).(phase := Idle))
  {
    hide Linked, OneOpen, Replay, Save, Saved, Story, Placed, Read, Uuid, Stamped, RequestOf;
    var k0 := k.(desk := desk, issued := k.issued + 1);
    LinkedLater(k.lineage, o.source, k.issued, k.issued + 1);
    SaveWorks(setup, o, k0, s);
    var n := Save(k0, s).value;
    StampedIs(s, k0.issued);
    EmitReplays(n.(desk := Saved(desk, q.(epoch := s.epoch + 1))), e);
    StoryStamped(setup, o, s, k0.issued, Read(k.sum, e), false);
    StampedPending(s, k0.issued);
    DeskLater(Saved(desk, q.(epoch := s.epoch + 1)), s.runId, s.epoch + 1, k.issued + 1, Some(Uuid(k.issued)),
        k.issued + 2);
  }

  lemma StampedPending(s: RunState, issued: nat)
    ensures Stamped(s, issued).pendingInterruptId == s.pendingInterruptId
  {
  }

  lemma LinkedLater(lineage: seq<RunState>, source: Option<string>, issued: nat, more: nat)
    requires Linked(lineage, source, issued) && issued <= more
    ensures Linked(lineage, source, more)
  {
    forall i | 0 <= i < |lineage| ensures LinkOk(lineage, source, more, i) {
      assert LinkOk(lineage, source, issued, i);
    }
  }

  lemma DeskLater(desk: Store, r: string, epoch: int, issued: nat, open: Option<string>, more: nat)
    requires OneOpen(desk, r, epoch, issued, open) && issued <= more
    ensures OneOpen(desk, r, epoch, more, open)
  {
    hide RequestOf;
  }

  /** Routing from a step of an accepted class follows a declared edge. */
  lemma RoutedEdge(setup: Setup, step: Step, output: Value, handoff: Option<string>, goto: Option<string>)
    requires Accepted(setup.workflow) && step in setup.workflow.steps
    ensures
      var r := RouteNext(step, output, setup.workflow.steps, handoff, goto, setup.str);
      r.Success? ==>
        && (r.value == END_STEP || r.value in Names(setup.workflow.steps))
        && Edge(setup.workflow.steps, step.name, Some(r.value))
        && (handoff.Some? ==> Lands(setup.workflow.steps, r.value, handoff.value))
  {
    hide RouteNext, PointsTo, HandoffLands, Names, Closed, Coherent, Lands, Distinct;
    FindDistinct(setup.workflow.steps, step);
    RoutingStaysInGraph(setup.workflow, step, output, handoff, goto, setup.str);
    TransitionPresent(setup.workflow, step);
    var r := RouteNext(step, output, setup.workflow.steps, handoff, goto, setup.str);
    if r.Success? {
      PointedDeclared(step.transition.value, output, goto, setup.str, r.value);
      if handoff.Some? {
        LandingFound(setup.workflow.steps, r.value, handoff);
      }
    }
  }

  lemma LandingFound(steps: seq<Step>, next: string, handoff: Option<string>)
    requires Distinct(steps) && handoff.Some? && HandoffLands(steps, next, handoff)
    ensures Lands(steps, next, handoff.value)
  {
    var s :| s in steps && s.name == next && s.executor.Agent? && s.executor.name == handoff.value;
    FindDistinct(steps, s);
  }

  lemma RoutedHandover(setup: Setup, step: Step, output: Value, handoff: Option<string>, goto: Option<string>)
    requires Accepted(setup.workflow) && step in setup.workflow.steps
      && Allowlisted(setup.workflow.steps, step.name, handoff)
    ensures
      var r := RouteNext(step, output, setup.workflow.steps, handoff, goto, setup.str);
      r.Success? && handoff.Some? ==>
        HandoverOk(setup.workflow.steps, Handover(Some(step.name), handoff.value, r.value))
  {
    hide Accepted, RouteNext, Names, Lands, Edge, Find;
    RoutedEdge(setup, step, output, handoff, goto);
  }

  lemma AdmittedAllowlisted(setup: Setup, step: Step, outcome: Outcome)
    requires Accepted(setup.workflow) && step in setup.workflow.steps
    ensures Admitted(step, outcome).Finished? ==>
      Allowlisted(setup.workflow.steps, step.name, Admitted(step, outcome).handoff)
  {
    hide Closed, Coherent;
    FindDistinct(setup.workflow.steps, step);
  }

  lemma TransitionPresent(wf: Workflow, step: Step)
    requires Accepted(wf) && step in wf.steps
    ensures step.transition.Some?
  {
  }

  lemma RouteWorks(setup: Setup, o: Origin, k: Kernel, step: Step, output: Value, handoff: Option<string>,
                   command: Option<Command>)
    requires Accepted(setup.workflow) && step in setup.workflow.steps
    requires Loose(setup, o, k) && k.sum.status == k.state.status == RUNNING && k.state.approvedSteps == {}
    requires k.state.currentStep == k.sum.step == Some(step.name)
    requires Leaving(k.sum.walk, Some(step.name))
    requires Allowlisted(setup.workflow.steps, step.name, handoff)
    ensures Route(setup, k, step, output, handoff, command).Success?
    ensures Inv(setup, o, Route(setup, k, step, output, handoff, command).value)
    ensures Asked(Route(setup, k, step, output, handoff, command).value)
  {
    hide Accepted, Loose, Inv, Emit, RouteNext, Transit, FailRun, Entering, Leaving, Edge, Names;
    RoutedEdge(setup, step, output, handoff, GotoOf(command));
    match RouteNext(step, output, setup.workflow.steps, handoff, GotoOf(command), setup.str)
    case Success(next) =>
      TransitWorks(setup, o, k, step.name, next, handoff, output);
    case Failure(_) =>
      if handoff.Some? {
        LooseEmit(setup, o, k, HandoffRejected(handoff.value));
        EmitState(k, HandoffRejected(handoff.value));
        FailWorks(setup, o, Emit(k, HandoffRejected(handoff.value)), "illegal transition");
      } else {
        FailWorks(setup, o, k, "illegal transition");
      }
  }

  /** When recording an execution, or pausing after it, raises. */
  predicate CannotFinish(setup: Setup, s: RunState, command: Option<Command>) {
    && command.Some?
    && (ApplyUpdate(setup, s.channels, command.value.stateUpdate).None?
        || (command.value.interrupt.Some? && setup.maxPending == 0))
  }

  lemma RecordFails(setup: Setup, o: Origin, k: Kernel, step: Step, output: Value, command: Option<Command>)
    requires Unrecorded(setup, o, k) && k.state.currentStep == Some(step.name) && k.state.status == RUNNING
    ensures Record(setup, k, step, output, command).Failure? <==>
      command.Some? && ApplyUpdate(setup, k.state.channels, command.value.stateUpdate).None?
    ensures Record(setup, k, step, output, command).Failure? ==>
      command.Some? && Record(setup, k, step, output, command).error == Halfway(setup, k, command.value.stateUpdate)
  {
    hide Linked, OneOpen, Replay, CheckpointsPlaced, Save, WalkBase, Names, ApplyUpdate;
    var update := if command.Some? then command.value.stateUpdate else map[];
    if command.None? {
      NothingToApply(setup, k.state.channels);
    }
    var channels := ApplyUpdate(setup, k.state.channels, update);
    if channels.Some? {
      SaveWorks(setup, o, k, Recorded(k.state, step, output, channels.value));
    }
  }

  lemma NothingToApply(setup: Setup, channels: map<string, Value>)
    ensures ApplyUpdate(setup, channels, map[]) == Some(channels)
  {
    assert Reductions(setup, channels, map[]) == map[];
    assert channels + map[] == channels;
  }

  lemma HalfwayWrecked(setup: Setup, o: Origin, k: Kernel, update: map<string, Value>)
    requires Unrecorded(setup, o, k) && k.state.status == RUNNING && StoredRunning(k)
    ensures Wrecked(setup, o, Halfway(setup, k, update))
  {
    hide Linked, OneOpen, Replay, CheckpointsPlaced, HandoffsOk, WalkBase, Walkable, Names, Reached;
  }

  lemma FinishWorks(setup: Setup, o: Origin, k: Kernel, step: Step, out: Outcome, now: int)
    requires Accepted(setup.workflow) && step in setup.workflow.steps && out.Finished?
    requires Loose(setup, o, k) && k.sum.status == k.state.status == RUNNING && StoredRunning(k)
    requires k.state.currentStep == k.sum.step == Some(step.name)
    requires Walkable(setup) ==> Entering(setup.workflow.steps, o.start, k.sum.walk, Some(step.name))
    requires Allowlisted(setup.workflow.steps, step.name, out.handoff)
    ensures
      var r := Finish(setup, Emit(k, ExecutionCompleted(step.name)), step, out, now);
      && (r.Failure? <==> CannotFinish(setup, k.state, out.command))
      && (r.Success? ==> Inv(setup, o, r.value) && Asked(r.value)) && (r.Failure? ==> Wrecked(setup, o, r.error))
  {
    hide Accepted, Loose, Unrecorded, Wrecked, Inv, Halfway, Emit, Record, Pause, Route, Entering, Edge, Names,
      ApplyUpdate;
    var k0 := Emit(k, ExecutionCompleted(step.name));
    EmitState(k, ExecutionCompleted(step.name));
    ExecutedWorks(setup, o, k, step);
    var output := OutputOf(out.output, out.command);
    RecordFails(setup, o, k0, step, output, out.command);
    var r := Record(setup, k0, step, output, out.command);
    if r.Success? {
      RecordWorks(setup, o, k0, step, output, out.command);
      if out.command.Some? && out.command.value.interrupt.Some? {
        PauseWorks(setup, o, r.value, step, output, out.handoff, out.command.value, now);
      } else {
        RouteWorks(setup, o, r.value, step, output, out.handoff, out.command);
      }
    } else {
      HalfwayWrecked(setup, o, k0, out.command.value.stateUpdate);
    }
  }

  lemma ExecuteWorks(setup: Setup, o: Origin, k: Kernel, step: Step, payload: Value, turn: Turn)
    requires Accepted(setup.workflow) && step in setup.workflow.steps
    requires Loose(setup, o, k) && k.sum.status == k.state.status == RUNNING && StoredRunning(k)
    requires TokensOk(setup, o, k.state, k.sum, true)
    requires k.state.currentStep == k.sum.step == Some(step.name) && !RequiresApproval(step, k.state)
    requires Walkable(setup) ==> Entering(setup.workflow.steps, o.start, k.sum.walk, Some(step.name))
    ensures
      var r := Execute(setup, k, step, payload, turn);
      var out := Admitted(step, turn.outcome);
      && (r.Failure? <==> out.Finished? && CannotFinish(setup, k.state, out.command))
      && (r.Success? ==> Inv(setup, o, r.value) && Asked(r.value)) && (r.Failure? ==> Wrecked(setup, o, r.error))
  {
    hide Loose, Inv, Wrecked, Emit, Finish, AskApproval, FailRun, Entering, Edge, Names, TokensOk, Admitted,
      CannotFinish, RequiresApproval, Closed, Coherent, Allowlisted;
    var k1 := Emit(k, ExecutionStarted(step.name));
    EmitState(k, ExecutionStarted(step.name));
    StartWorks(setup, o, k, step);
    AdmittedAllowlisted(setup, step, turn.outcome);
    match Admitted(step, turn.outcome)
    case NeedsApproval => AskWorks(setup, o, k1, step.name, payload);
    case Fails(error) => FailWorks(setup, o, k1, error);
    case Finished(output, handoff, command) =>
      FinishWorks(setup, o, k1, step, Finished(output, handoff, command), turn.now);
  }

  /** Exactly when an exception escapes an iteration of an invariant run: a required artifact is
      missing, a reducer raises, or an interrupt is refused because the limit is zero. A step that is
      not found is not among the reasons. */
  predicate Abandons(setup: Setup, s: RunState, turn: Turn) {
    s.currentStep.Some? &&
    match Find(setup.workflow.steps, s.currentStep.value)
    case None => false
    case Some(step) =>
      || MissingArtifact(step, s.artifacts)
      || (&& !RequiresApproval(step, s) && turn.denied.None? && Admitted(step, turn.outcome).Finished?
          && CannotFinish(setup, s, Admitted(step, turn.outcome).command))
  }

  lemma CurrentFound(setup: Setup, o: Origin, k: Kernel)
    requires InLoop(setup, o, k)
    ensures k.state.currentStep.Some? ==> Find(setup.workflow.steps, k.state.currentStep.value).Some?
    ensures k.state.currentStep.None? ==> k.state.approvedSteps == {}
  {
    hide Storage, OneOpen, Replay, CheckpointsPlaced, AddAll, WalkOk, TokensOk, Synced;
  }

  lemma IterateWorks(setup: Setup, o: Origin, k: Kernel, turn: Turn)
    requires Accepted(setup.workflow) && InLoop(setup, o, k)
    ensures Iterate(setup, k, turn).phase.Crashed? <==> Abandons(setup, k.state, turn)
    ensures !Iterate(setup, k, turn).phase.Crashed? ==>
      Inv(setup, o, Iterate(setup, k, turn)) && Asked(Iterate(setup, k, turn))
    ensures Iterate(setup, k, turn).phase.Crashed? ==> Wrecked(setup, o, Iterate(setup, k, turn))
  {
    hide Accepted, Loose, Inv, Wrecked, Emit, Execute, AskApproval, FailRun, Complete, Entering, Edge, Names, TokensOk,
      Find, CannotFinish, Gated, Admitted, MissingArtifact;
    LoopIsLoose(setup, o, k);
    CurrentFound(setup, o, k);
    var payload := k.phase.payload;
    if k.state.currentStep.None? {
      CompleteWorks(setup, o, k);
      NotCrashed(setup, o, Complete(k).value);
    } else {
      var step := Find(setup.workflow.steps, k.state.currentStep.value).value;
      var k1 := Emit(k, StepEntered(step.name));
      LooseEmit(setup, o, k, StepEntered(step.name));
      EmitState(k, StepEntered(step.name));
      if MissingArtifact(step, k.state.artifacts) {
        WreckedLoose(setup, o, k1, Crashed);
      } else if RequiresApproval(step, k.state) {
        AskWorks(setup, o, k1, step.name, payload);
        NotCrashed(setup, o, AskApproval(k1, step.name, payload).value);
      } else if turn.denied.Some? {
        LooseEmit(setup, o, k1, PolicyDenied(step.name));
        EmitState(k1, PolicyDenied(step.name));
        var k2 := Emit(k1, PolicyDenied(step.name));
        FailWorks(setup, o, k2, turn.denied.value);
        NotCrashed(setup, o, FailRun(k2, turn.denied.value).value);
      } else {
        TokensEmitted(setup, o, k, StepEntered(step.name));
        ExecuteWorks(setup, o, k1, step, payload, turn);
        if Execute(setup, k1, step, payload, turn).Success? {
          NotCrashed(setup, o, Execute(setup, k1, step, payload, turn).value);
        } else {
          WreckedPhase(setup, o, Execute(setup, k1, step, payload, turn).error, Crashed);
        }
      }
    }
  }

  lemma NotCrashed(setup: Setup, o: Origin, k: Kernel)
    requires Inv(setup, o, k)
    ensures !k.phase.Crashed?
  {
  }

  lemma TokensEmitted(setup: Setup, o: Origin, k: Kernel, e: Event)
    requires TokensOk(setup, o, k.state, k.sum, true) && (e.StepEntered? || e.PolicyDenied?)
    ensures TokensOk(setup, o, Emit(k, e).state, Emit(k, e).sum, true)
  {
  }

  // ---- resuming ----

  lemma ApprovalLoose(setup: Setup, o: Origin, k: Kernel)
    requires Inv(setup, o, k) && k.state.status == WAITING_APPROVAL
    ensures Loose(setup, o, k) && k.sum.step == k.state.currentStep && k.state.currentStep.Some?
    ensures k.state.pendingApproval == k.state.currentStep
    ensures Walkable(setup) ==> Entering(setup.workflow.steps, o.start, k.sum.walk, k.state.currentStep)
  {
    hide Linked, Path, OneOpen, Replay, AddAll, CheckpointsPlaced, Placed, Entering;
  }

  /** The state an approval leaves, before it is saved. */
  function Approved(s: RunState): RunState
    requires s.pendingApproval.Some?
  {
    s.(approvedSteps := s.approvedSteps + {s.pendingApproval.value}, pendingInput := None, pendingApproval := None,
        status := RUNNING)
  }

  lemma GrantStory(setup: Setup, o: Origin, k: Kernel)
    requires Inv(setup, o, k) && k.state.status == WAITING_APPROVAL
    ensures
      var k1 := Emit(k, ApprovalGranted(k.state.currentStep));
      && k.state.pendingApproval.Some? && Story(setup, o, Approved(k.state), k1.sum, true)
      && Savable(setup, o, k1, Approved(k.state)) && k1.desk == k.desk && k1.issued == k.issued
      && OneOpen(k.desk, k.state.runId, k.state.epoch, k.issued, None)
  {
    hide Linked, Path, OneOpen, Replay, AddAll, CheckpointsPlaced, Entering, Names, Storage;
    ApprovalLoose(setup, o, k);
    EmitReplays(k, ApprovalGranted(k.state.currentStep));
    EmitStorage(o, k, ApprovalGranted(k.state.currentStep));
  }

  lemma RejectLoose(setup: Setup, o: Origin, k: Kernel)
    requires Inv(setup, o, k) && k.state.status == WAITING_APPROVAL
    ensures
      var k1 := Emit(k, ApprovalRejected(k.state.currentStep)).(state := k.state.(pendingApproval := None));
      && Loose(setup, o, k1) && k1.sum.step == k1.state.currentStep
      && (Walkable(setup) ==> Entering(setup.workflow.steps, o.start, k1.sum.walk, k1.state.currentStep))
  {
    hide Linked, WalkBase, OneOpen, Replay, AddAll, CheckpointsPlaced, Entering, Names;
    ApprovalLoose(setup, o, k);
    LooseEmit(setup, o, k, ApprovalRejected(k.state.currentStep));
    EmitState(k, ApprovalRejected(k.state.currentStep));
  }

  lemma ResumeApprovalWorks(setup: Setup, o: Origin, k: Kernel, payload: ResumePayload)
    requires Inv(setup, o, k) && k.state.status == WAITING_APPROVAL
    ensures ResumeApproval(k, payload).Success? && Inv(setup, o, ResumeApproval(k, payload).value)
    ensures Asked(ResumeApproval(k, payload).value)
    ensures payload.Approve? ==>
      ResumeApproval(k, payload).value.phase == Advancing(k.state.pendingInput.GetOr(Null))
    ensures payload.Answer? ==> ResumeApproval(k, payload).value == k
  {
    hide Inv, Loose, Emit, Save, FailRun, Entering, Savable, Story, OneOpen;
    if payload.Approve? {
      GrantStory(setup, o, k);
      EmitState(k, ApprovalGranted(k.state.currentStep));
      Continues(setup, o, Emit(k, ApprovalGranted(k.state.currentStep)), Approved(k.state),
          k.state.pendingInput.GetOr(Null));
    } else if payload.Reject? {
      GrantStory(setup, o, k);
      RejectLoose(setup, o, k);
      FailWorks(setup, o, Emit(k, ApprovalRejected(k.state.currentStep)).(state := k.state.(pendingApproval := None)),
          payload.reason);
    }
  }

  lemma InterruptLoose(setup: Setup, o: Origin, k: Kernel)
    requires Inv(setup, o, k) && k.state.status == WAITING_INTERRUPT
    ensures Storage(o, k) && CheckpointsPlaced(setup, k.lineage) && k.sum == Replay(k.trail) && !k.sum.ended
      && !k.sum.late
    ensures Placed(setup, k.state) && k.state.approvedSteps == {} && TokensOk(setup, o, k.state, k.sum, false)
    ensures k.state.currentStep.Some? && k.sum.step == k.state.currentStep
    ensures k.state.completedSteps == AddAll(o.done, k.sum.walk)
    ensures k.state.pendingInterruptId.Some? && k.state.pendingResume.Some?
    ensures k.state.pendingResume.value.stepName == k.state.currentStep.value
    ensures OneOpen(k.desk, k.state.runId, k.state.epoch, k.issued, k.state.pendingInterruptId)
    ensures Walkable(setup) ==> WalkBase(setup.workflow.steps, o, k.sum.walk)
    ensures Leaving(k.sum.walk, k.state.currentStep) && setup.maxPending > 0 && HandoffsOk(setup, k.sum)
    ensures Allowlisted(setup.workflow.steps, k.state.currentStep.value, k.state.pendingResume.value.handoff)
  {
    hide Linked, Path, OneOpen, Replay, AddAll, CheckpointsPlaced, Storage, Names;
  }

  /** An answer that is refused: only the request's status and the trail may change. */
  lemma RefusedAnswer(setup: Setup, o: Origin, k: Kernel, desk: Store, e: Event)
    requires Inv(setup, o, k) && k.state.status == WAITING_INTERRUPT
      && (e.InterruptExpired? || e.InterruptRejectedEpoch?)
    requires OneOpen(desk, k.state.runId, k.state.epoch, k.issued, k.state.pendingInterruptId)
    ensures Inv(setup, o, Emit(k.(desk := desk), e))
    ensures
      && k.state.pendingInterruptId.Some?
      && RequestOf(desk, k.state.runId, k.state.pendingInterruptId.value).Some? ==>
        Asked(Emit(k.(desk := desk), e))
  {
    hide Linked, OneOpen, Replay, CheckpointsPlaced, Placed, WalkOk, PausesOk, AddAll, RequestOf;
    EmitReplays(k.(desk := desk), e);
  }

  /** The state an accepted answer leaves, before it is saved. */
  function Answered(s: RunState): RunState {
    s.(pendingInterruptId := None, status := RUNNING)
  }

  lemma AcceptedAnswer(setup: Setup, o: Origin, k: Kernel, desk: Store, id: string)
    requires Inv(setup, o, k) && k.state.status == WAITING_INTERRUPT
    requires OneOpen(desk, k.state.runId, k.state.epoch, k.issued, None)
    ensures Save(k.(desk := desk), Answered(k.state)).Success?
    ensures
      var n := Emit(Save(k.(desk := desk), Answered(k.state)).value, InterruptResolved(id));
      && Loose(setup, o, n) && n.sum.status == n.state.status == RUNNING && n.sum.step == n.state.currentStep
      && n.state.approvedSteps == {} && n.stored == Some(n.state)
      && n.state.currentStep == k.state.currentStep && n.state.pendingResume == k.state.pendingResume
      && n.sum.walk == k.sum.walk
  {
    hide Linked, OneOpen, Replay, CheckpointsPlaced, Storage, Names, AddAll, WalkBase, Inv, Save;
    InterruptLoose(setup, o, k);
    var k0 := k.(desk := desk);
    var s := Answered(k.state);
    StorageDesk(o, k, desk);
    SaveWorks(setup, o, k0, s);
    DeskRises(desk, s.runId, s.epoch, k.issued, s.epoch + 1, k.issued + 1);
    var n := Save(k0, s).value;
    EmitReplays(n, InterruptResolved(id));
    EmitStorage(o, n, InterruptResolved(id));
  }

  lemma StorageDesk(o: Origin, k: Kernel, desk: Store)
    requires Storage(o, k)
    ensures Storage(o, k.(desk := desk))
  {
    hide Linked;
  }

  lemma PopLoose(setup: Setup, o: Origin, k: Kernel)
    requires Loose(setup, o, k)
    ensures Loose(setup, o, k.(state := k.state.(pendingResume := None)))
  {
    hide Linked, OneOpen, Replay, CheckpointsPlaced, Names, AddAll, WalkBase;
  }

  lemma PoppedInv(setup: Setup, o: Origin, k: Kernel, response: Value)
    requires Loose(setup, o, k) && k.sum.status == k.state.status == RUNNING && k.sum.step == k.state.currentStep
    requires k.state.approvedSteps == {} && k.stored == Some(k.state)
    requires Walkable(setup) ==> Entering(setup.workflow.steps, o.start, k.sum.walk, k.state.currentStep)
    ensures Inv(setup, o, k.(state := k.state.(pendingResume := None), phase := Advancing(response)))
  {
    hide Linked, OneOpen, Replay, CheckpointsPlaced, Names, AddAll, Path, Walkable, Entering, HandoffsOk;
  }

  /** Where a step named "" may be interrupted, it may also follow itself. */
  lemma SelfEdge(setup: Setup, o: Origin, walk: seq<string>)
    requires setup.maxPending > 0 && "" in Names(setup.workflow.steps) && Leaving(walk, Some(""))
    ensures Walkable(setup) ==> Entering(setup.workflow.steps, o.start, walk, Some(""))
  {
    hide Names, Edge;
  }

  /** The routing saved with the interrupt fails when it is followed; a step named "" follows none. */
  predicate Misrouted(setup: Setup, s: RunState) {
    && s.pendingResume.Some? && s.pendingResume.value.stepName != ""
    && var c := s.pendingResume.value;
       match Find(setup.workflow.steps, c.stepName)
       case None => false
       case Some(step) => RouteNext(step, c.output, setup.workflow.steps, c.handoff, c.command.goto, setup.str).Failure?
  }

  /** An answer that goes through: to a live request, under its epoch. */
  predicate Accepts(k: Kernel, payload: ResumePayload, now: int) {
    && payload.Answer?
    && var q := RequestOf(k.desk, k.state.runId, payload.interruptId);
       q.Some? && Live(q.value, Some(payload.epoch.GetOr(k.state.epoch)), now)
  }

  lemma LooseUnopened(setup: Setup, o: Origin, k: Kernel)
    requires Loose(setup, o, k)
    ensures k.state.pendingInterruptId.None?
  {
    hide Storage, OneOpen, Replay, CheckpointsPlaced, Placed, TokensOk, HandoffsOk, WalkBase, Walkable, AddAll;
  }

  lemma FollowWorks(setup: Setup, o: Origin, k: Kernel, response: Value)
    requires Accepted(setup.workflow)
    requires Loose(setup, o, k) && k.sum.status == k.state.status == RUNNING && k.sum.step == k.state.currentStep
    requires k.state.approvedSteps == {} && k.stored == Some(k.state)
    requires k.state.pendingResume.Some? && k.state.currentStep == Some(k.state.pendingResume.value.stepName)
    requires k.state.currentStep.value in Names(setup.workflow.steps)
    requires Leaving(k.sum.walk, k.state.currentStep) && setup.maxPending > 0
    requires Allowlisted(setup.workflow.steps, k.state.currentStep.value, k.state.pendingResume.value.handoff)
    ensures FollowContinuation(setup, k, response).Success? ==>
      Inv(setup, o, FollowContinuation(setup, k, response).value) && Asked(FollowContinuation(setup, k, response).value)
    ensures FollowContinuation(setup, k, response).Failure? <==> Misrouted(setup, k.state)
    ensures FollowContinuation(setup, k, response).Failure? ==>
      Wrecked(setup, o, FollowContinuation(setup, k, response).error)
  {
    hide Loose, Inv, Wrecked, Transit, RouteNext, Find, Leaving, Edge, Names, Accepted;
    var c := k.state.pendingResume.value;
    var k1 := k.(state := k.state.(pendingResume := None));
    PopLoose(setup, o, k);
    LooseUnopened(setup, o, k);
    WreckedLoose(setup, o, k1, Crashed);
    if c.stepName == "" {
      SelfEdge(setup, o, k.sum.walk);
      PoppedInv(setup, o, k, response);
    } else {
      var step := Find(setup.workflow.steps, c.stepName).value;
      RoutedEdge(setup, step, c.output, c.handoff, c.command.goto);
      var r := RouteNext(step, c.output, setup.workflow.steps, c.handoff, c.command.goto, setup.str);
      if r.Success? {
        TransitWorks(setup, o, k1, c.stepName, r.value, c.handoff, if response.Null? then c.output else response);
      }
    }
  }

  lemma PlacedCurrent(setup: Setup, s: RunState)
    requires Placed(setup, s) && s.currentStep.Some?
    ensures s.currentStep.value in Names(setup.workflow.steps)
  {
  }

  lemma ResumeInterruptWorks(setup: Setup, o: Origin, k: Kernel, payload: ResumePayload, now: int)
    requires Accepted(setup.workflow) && Inv(setup, o, k) && k.state.status == WAITING_INTERRUPT
    ensures
      var r := ResumeInterrupt(setup, k, payload, now);
      && (r.Success? ==> Inv(setup, o, r.value) && (Asked(k) && k.phase.Idle? ==> Asked(r.value)))
      && (r.Failure? <==> Accepts(k, payload, now) && Misrouted(setup, k.state))
      && (r.Failure? ==> Wrecked(setup, o, r.error))
  {
    hide Accepted, Inv, Wrecked, Loose, Emit, Save, Placed, OneOpen, Storage, Settled, Bumped, FollowContinuation,
      Names, Leaving, WalkBase, TokensOk, AddAll, Replay, CheckpointsPlaced, Find, RouteNext;
    InterruptLoose(setup, o, k);
    if payload.Answer? {
      var open := k.state.pendingInterruptId.value;
      var given := payload.epoch.GetOr(k.state.epoch);
      DeskSettles(k.desk, k.state.runId, k.state.epoch, k.issued, open, payload.interruptId, given, now);
      var c := Settled(k.desk, k.state.runId, payload.interruptId, Some(given), now);
      if c.1.Failure? {
        RefusedAnswer(setup, o, k, c.0,
          if c.1.error.HasExpired? then InterruptExpired(payload.interruptId)
            else InterruptRejectedEpoch(payload.interruptId));
      } else {
        DeskBumped(c.0, k.state.runId, k.state.epoch, k.issued, None);
        var desk := Bumped(c.0, k.state.runId);
        AcceptedAnswer(setup, o, k, desk, payload.interruptId);
        PlacedCurrent(setup, k.state);
        FollowWorks(setup, o,
            Emit(Save(k.(desk := desk), Answered(k.state)).value, InterruptResolved(payload.interruptId)),
              payload.response);
      }
    }
  }

  lemma ResumeWorks(setup: Setup, o: Origin, k: Kernel, payload: ResumePayload, now: int)
    requires Accepted(setup.workflow) && Inv(setup, o, k) && k.phase.Idle?
    ensures Resume(setup, k, payload, now).phase.Crashed? <==>
      k.state.status == WAITING_INTERRUPT && Accepts(k, payload, now) && Misrouted(setup, k.state)
    ensures !Resume(setup, k, payload, now).phase.Crashed? ==>
      Inv(setup, o, Resume(setup, k, payload, now)) && (Asked(k) ==> Asked(Resume(setup, k, payload, now)))
    ensures Resume(setup, k, payload, now).phase.Crashed? ==> Wrecked(setup, o, Resume(setup, k, payload, now))
  {
    hide Accepted, Inv, Wrecked, ResumeApproval, ResumeInterrupt, Misrouted;
    if k.state.status == WAITING_APPROVAL {
      ResumeApprovalWorks(setup, o, k, payload);
      NotCrashed(setup, o, ResumeApproval(k, payload).value);
    } else if k.state.status == WAITING_INTERRUPT {
      ResumeInterruptWorks(setup, o, k, payload, now);
      if ResumeInterrupt(setup, k, payload, now).Success? {
        NotCrashed(setup, o, ResumeInterrupt(setup, k, payload, now).value);
      } else {
        WreckedPhase(setup, o, ResumeInterrupt(setup, k, payload, now).error, Crashed);
      }
    }
  }

  lemma TendedWorks(setup: Setup, o: Origin, k: Kernel, l: Label)
    requires Inv(setup, o, k)
    ensures Inv(setup, o, k.(desk := Tended(k.desk, k.state.runId, l)))
  {
    hide Linked, OneOpen, Replay, CheckpointsPlaced, Story, Tended;
    DeskTended(k.desk, k.state.runId, k.state.epoch, k.issued, k.state.pendingInterruptId, l);
  }

  // ---- beginning ----

  lemma FirstSave(setup: Setup, s: RunState, issued: nat)
    requires Consistent(s) && Placed(setup, s)
    ensures Save(Newborn(s, issued), s).Success?
    ensures
      var n := Save(Newborn(s, issued), s).value;
      && n.state == Stamped(s, issued).(epoch := 1) && n.stored == Some(n.state) && n.lineage == [n.state]
      && n.desk == Bumped(EMPTY_STORE, s.runId) && n.sum == UNREAD && n.sum == Replay(n.trail)
      && n.issued == issued + 1 && n.phase == Idle
  {
    var e := CheckpointWritten(Uuid(issued), s.checkpointId);
    ReplaySnoc([], e);
    assert [] + [e] == [e];
  }

  /** A run that begins, with its first checkpoint written and its start reported. */
  lemma FirstCheckpoint(setup: Setup, o: Origin, s: RunState, n: Kernel, issued: nat)
    requires Placed(setup, s) && n.state == Stamped(s, issued).(epoch := 1) && n.stored == Some(n.state)
      && n.lineage == [n.state]
    requires n.desk == Bumped(EMPTY_STORE, s.runId) && n.issued == issued + 1 && s.checkpointId == o.source
    ensures Storage(o, n) && CheckpointsPlaced(setup, n.lineage)
    ensures OneOpen(n.desk, s.runId, 1, n.issued, None)
    ensures Placed(setup, n.state)
  {
    assert LinkOk(n.lineage, o.source, n.issued, 0);
    forall i ensures RequestOf(n.desk, s.runId, i) == None {
      BumpedLookup(EMPTY_STORE, s.runId, s.runId, i);
    }
  }

  lemma BeginWorks(setup: Setup, runId: string, threadId: string, entry: string, data: Value, issued: nat)
    requires entry in Names(setup.workflow.steps)
    ensures Inv(setup, Origin(None, Some(entry), [], {}), Begin(setup, runId, threadId, entry, data, issued))
    ensures Begin(setup, runId, threadId, entry, data, issued).phase == Advancing(data)
  {
    hide Linked, OneOpen, Replay, Storage, Inv, Emit, Save, Stamped, Names, CheckpointsPlaced;
    var o := Origin(None, Some(entry), [], {});
    var s := BLANK.(runId := runId, threadId := threadId, currentStep := Some(entry),
        channels := setup.channelDefaults);
    FirstSave(setup, s, issued);
    var n := Save(Newborn(s, issued), s).value;
    FirstCheckpoint(setup, o, s, n, issued);
    var e := RunStarted(Some(entry));
    EmitStorage(o, n, e);
    EmitReplays(n, e);
    EmitState(n, e);
    var k2 := Emit(n, e);
    StampedFields(s, issued);
    Continues(setup, o, k2, k2.state.(status := RUNNING), data);
  }

  lemma StampedFields(s: RunState, issued: nat)
    ensures Stamped(s, issued)
      == s.(parentCheckpointId := s.checkpointId, epoch := s.epoch + 1, checkpointId := Some(Uuid(issued)))
  {
  }

  function Cleaned(snapshot: RunState, runId: string): RunState {
    snapshot.(runId := runId, pendingApproval := None, pendingInterruptId := None, error := None,
              status := RUNNING, pendingInput := None, pendingResume := None)
  }

  function Resumed(snapshot: RunState): Origin {
    Origin(snapshot.checkpointId, snapshot.currentStep, snapshot.completedSteps, snapshot.approvedSteps)
  }

  lemma RestoredStory(setup: Setup, snapshot: RunState, runId: string, issued: nat, source: string)
    requires Placed(setup, snapshot)
    ensures
      var s := Stamped(Cleaned(snapshot, runId), issued).(epoch := 1);
      && Story(setup, Resumed(snapshot), s,
           Read(Read(UNREAD, CheckpointRestored(source)), RunStarted(snapshot.currentStep)), true)
      && s.runId == runId && s.epoch == 1 && s.pendingInterruptId == None && s.status == RUNNING
  {
    hide Names;
  }

  lemma CleanedPlaced(setup: Setup, snapshot: RunState, runId: string)
    requires Placed(setup, snapshot)
    ensures
      var s := Cleaned(snapshot, runId);
      && Placed(setup, s) && Consistent(s) && s.runId == runId
      && s.checkpointId == snapshot.checkpointId && s.currentStep == snapshot.currentStep
  {
    hide Names;
  }

  lemma EmitTwice(o: Origin, k: Kernel, e: Event, f: Event)
    requires Storage(o, k) && k.sum == Replay(k.trail)
    ensures
      var n := Emit(Emit(k, e), f);
      && Storage(o, n) && n.sum == Replay(n.trail)
      && n == k.(trail := k.trail + [e] + [f], sum := Read(Read(k.sum, e), f))
  {
    hide Storage, Replay, Read;
    EmitStorage(o, k, e);
    EmitReplays(k, e);
    EmitStorage(o, Emit(k, e), f);
    EmitReplays(Emit(k, e), f);
  }

  /** Any placed snapshot can be restored, under a run id of its own. */
  lemma RestoreWorks(setup: Setup, snapshot: RunState, source: string, runId: string, payload: Value, issued: nat)
    requires Placed(setup, snapshot)
    ensures Inv(setup, Resumed(snapshot), Restore(snapshot, source, runId, payload, issued))
    ensures Restore(snapshot, source, runId, payload, issued).phase == Advancing(payload)
  {
    hide Linked, OneOpen, Replay, Storage, Emit, Save, Stamped, Story, Read, Placed, CheckpointsPlaced, Consistent,
      Bumped;
    var o := Resumed(snapshot);
    var s := Cleaned(snapshot, runId);
    CleanedPlaced(setup, snapshot, runId);
    FirstSave(setup, s, issued);
    var n := Save(Newborn(s, issued), s).value;
    FirstCheckpoint(setup, o, s, n, issued);
    var e, f := CheckpointRestored(source), RunStarted(snapshot.currentStep);
    EmitTwice(o, n, e, f);
    RestoredStory(setup, snapshot, runId, issued, source);
    StorageEmitted(o, Emit(Emit(n, e), f), f, Advancing(payload));
  }

  /** Uuids drawn by other runs do not disturb this one. */
  lemma DrawnWorks(setup: Setup, o: Origin, k: Kernel, drawn: nat)
    requires Inv(setup, o, k)
    ensures Inv(setup, o, k.(issued := k.issued + drawn))
  {
    hide Linked, OneOpen, Replay, CheckpointsPlaced, Story;
    LinkedLater(k.lineage, o.source, k.issued, k.issued + drawn);
    DeskLater(k.desk, k.state.runId, k.state.epoch, k.issued, k.state.pendingInterruptId, k.issued + drawn);
  }

  // ---- whole runs ----

  /** Holds after any sequence of turns, resumes, listings, looks, sweeps and clearings and whatever other
      runs do. */
  ghost predicate Sound(setup: Setup, o: Origin, k: Kernel) {
    if k.phase.Crashed? then Wrecked(setup, o, k) else Inv(setup, o, k)
  }

  lemma WreckedStays(setup: Setup, o: Origin, k: Kernel, l: Label)
    requires Wrecked(setup, o, k)
    ensures Wrecked(setup, o, k.(desk := Tended(k.desk, k.state.runId, l)))
    ensures l.Others? ==> Wrecked(setup, o, k.(issued := k.issued + l.drawn))
  {
    hide Linked, OneOpen, Replay, CheckpointsPlaced, Placed, TokensOk, HandoffsOk, WalkBase, Walkable, Tended;
    DeskTended(k.desk, k.state.runId, k.state.epoch, k.issued, None, l);
    if l.Others? {
      LinkedLater(k.lineage, o.source, k.issued, k.issued + l.drawn);
      DeskLater(k.desk, k.state.runId, k.state.epoch, k.issued, None, k.issued + l.drawn);
    }
  }

  /** A run that its runtime has left in the loop, or that was abandoned before, as the store has it. */
  lemma LostWorks(setup: Setup, o: Origin, k: Kernel)
    requires Sound(setup, o, k) && !k.phase.Idle?
    ensures k.stored.Some? && Wrecked(setup, o, k.(state := k.stored.value, phase := Crashed))
  {
    hide Linked, OneOpen, Replay, Placed, HandoffsOk, WalkBase, Walkable, AddAll, Path, TokensOk;
    if k.phase.Advancing? {
      LoopIsLoose(setup, o, k);
    }
    LostTokens(setup, o, k.state, k.stored.value, k.sum);
    assert Placed(setup, k.lineage[|k.lineage| - 1]);
  }

  /** The tokens a run holds play no part between executions. */
  lemma LostTokens(setup: Setup, o: Origin, s: RunState, t: RunState, sum: Summary)
    requires TokensOk(setup, o, s, sum, false)
    ensures TokensOk(setup, o, t, sum, false)
  {
  }

  lemma NextWorks(setup: Setup, o: Origin, k: Kernel, l: Label)
    requires Accepted(setup.workflow) && Sound(setup, o, k)
    ensures Sound(setup, o, Next(setup, k, l))
  {
    hide Accepted, Inv, Wrecked, Iterate, Resume, Tended;
    if l.Lost? {
      if !k.phase.Idle? {
        LostWorks(setup, o, k);
      }
    } else if k.phase.Crashed? {
      WreckedStays(setup, o, k, l);
    } else {
      match l
      case Go(turn) =>
        if k.phase.Advancing? {
          IterateWorks(setup, o, k, turn);
        }
      case Call(payload, now) =>
        if k.phase.Idle? {
          ResumeWorks(setup, o, k, payload, now);
        }
      case Others(drawn) => DrawnWorks(setup, o, k, drawn);
      case Lost =>
      case _ => TendedWorks(setup, o, k, l);
    }
  }

  lemma {:induction false} RunWorks(setup: Setup, o: Origin, k: Kernel, labels: seq<Label>)
    requires Accepted(setup.workflow) && Sound(setup, o, k)
    ensures Sound(setup, o, Run(setup, k, labels))
    decreases |labels|
  {
    hide Accepted, Sound, Next;
    if labels != [] {
      NextWorks(setup, o, k, labels[0]);
      RunWorks(setup, o, Next(setup, k, labels[0]), labels[1..]);
    }
  }

  /** Only a sweep or a clearing takes the request of a waiting run away. */
  lemma NextAsked(setup: Setup, o: Origin, k: Kernel, l: Label)
    requires Accepted(setup.workflow) && Sound(setup, o, k) && Asked(k) && !l.Sweep? && !l.Clear?
    ensures Asked(Next(setup, k, l))
  {
    hide Accepted, Inv, Wrecked, Iterate, Resume, Tended, RequestOf;
    if l.Go? && k.phase.Advancing? {
      IterateWorks(setup, o, k, l.turn);
    } else if l.Call? && k.phase.Idle? {
      ResumeWorks(setup, o, k, l.payload, l.now);
    } else if k.phase.Idle? && k.state.status == WAITING_INTERRUPT {
      InterruptLoose(setup, o, k);
      var open := k.state.pendingInterruptId;
      DeskFiled(k.desk, k.state.runId, k.state.epoch, k.issued, open);
      TendedFades(k.desk, k.state.runId, l, open.value);
    }
  }

  lemma {:induction false} RunAsked(setup: Setup, o: Origin, k: Kernel, labels: seq<Label>)
    requires Accepted(setup.workflow) && Sound(setup, o, k) && Asked(k)
    requires forall l | l in labels :: !l.Sweep? && !l.Clear?
    ensures Asked(Run(setup, k, labels))
    decreases |labels|
  {
    hide Accepted, Sound, Next, Asked;
    if labels != [] {
      NextWorks(setup, o, k, labels[0]);
      NextAsked(setup, o, k, labels[0]);
      RunAsked(setup, o, Next(setup, k, labels[0]), labels[1..]);
    }
  }
}
