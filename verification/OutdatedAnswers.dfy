/** Two runtimes over the same stores, one of them with an outdated copy of a waiting run: resolving an
    interrupt comes before the put that fences the outdated runtime off (governai/runtime/local.py, lines
    367-372 before line 399). */
module OutdatedAnswers {
  import opened Prelude
  import opened Values
  import opened RunStates
  import opened RunStore
  import opened Workflows
  import opened Interrupts
  import opened InterruptManager
  import opened Lifecycle
  import opened LifecycleInvariants

  /** The run as a runtime with this copy of it has it: cache apart, everything is shared. */
  function Seen(k: Kernel, copy: RunState): Kernel {
    k.(state := copy)
  }

  /** A copy of the run from before its last put. */
  predicate OutdatedCopy(k: Kernel, copy: RunState) {
    copy.runId == k.state.runId && copy.epoch < k.state.epoch
  }

  /** The run waits on a request that can be answered until it expires. */
  predicate Waits(k: Kernel, now: int) {
    && k.phase.Idle? && k.state.status == WAITING_INTERRUPT && k.state.pendingInterruptId.Some?
    && var q := RequestOf(k.desk, k.state.runId, k.state.pendingInterruptId.value);
       q.Some? && Live(q.value, None, now)
  }

  /** The run waits and no request of its is pending. */
  ghost predicate Mute(k: Kernel) {
    && k.phase.Idle? && k.state.status == WAITING_INTERRUPT && Filed(k.desk, k.state.runId)
    && forall i | RequestOf(k.desk, k.state.runId, i).Some? ::
       !RequestOf(k.desk, k.state.runId, i).value.status.Pending?
  }

  // ---- what the outdated runtime does ----

  lemma SaveRefused(k: Kernel, s: RunState)
    requires k.stored.Some? && s.epoch < k.stored.value.epoch
    ensures Save(k, s).Failure? && Save(k, s).error.desk == k.desk && Save(k, s).error.stored == k.stored
    ensures Save(k, s).error.lineage == k.lineage
  {
    hide Consistent;
  }

  lemma OutdatedApproval(setup: Setup, k: Kernel, payload: ResumePayload)
    requires k.stored.Some? && k.state.epoch < k.stored.value.epoch
    ensures
      var x := Settle(ResumeApproval(k, payload));
      x.desk == k.desk && x.stored == k.stored && x.lineage == k.lineage
  {
    hide Save, Read;
    if k.state.pendingApproval.Some? && payload.Reject? {
      var k1 := Emit(k, ApprovalRejected(k.state.currentStep)).(state := k.state.(pendingApproval := None));
      SaveRefused(k1, k1.state.(status := FAILED, error := Some(payload.reason)));
    } else if k.state.pendingApproval.Some? && payload.Approve? {
      var s := k.state.(approvedSteps := k.state.approvedSteps + {k.state.pendingApproval.value},
                        pendingInput := None, pendingApproval := None, status := RUNNING);
      SaveRefused(Emit(k, ApprovalGranted(k.state.currentStep)), s);
    }
  }

  /** Its answer is settled before its put is refused. */
  lemma OutdatedInterrupt(setup: Setup, k: Kernel, payload: ResumePayload, now: int)
    requires k.stored.Some? && k.state.epoch < k.stored.value.epoch && k.state.pendingInterruptId.Some?
      && payload.Answer?
    ensures
      var x := Settle(ResumeInterrupt(setup, k, payload, now));
      var c := Settled(k.desk, k.state.runId, payload.interruptId, Some(payload.epoch.GetOr(k.state.epoch)), now);
      && x.stored == k.stored && x.lineage == k.lineage
      && x.desk == if c.1.Success? then Bumped(c.0, k.state.runId) else c.0
  {
    hide Save, Read, Settled, Bumped, FollowContinuation;
    var c := Settled(k.desk, k.state.runId, payload.interruptId, Some(payload.epoch.GetOr(k.state.epoch)), now);
    if c.1.Success? {
      SaveRefused(k.(desk := Bumped(c.0, k.state.runId)), k.state.(pendingInterruptId := None, status := RUNNING));
    }
  }

  /** While the open request is live, an answer settles it or changes nothing. */
  lemma SettlesOrNot(desk: Store, r: string, epoch: int, issued: nat, open: string, id: string, given: int, now: int)
    requires OneOpen(desk, r, epoch, issued, Some(open))
    requires RequestOf(desk, r, open).Some? && Live(RequestOf(desk, r, open).value, None, now)
    ensures
      var c := Settled(desk, r, id, Some(given), now);
      && (c.1.Success? <==> id == open && given == epoch)
      && (c.1.Failure? ==> c.0 == desk)
      && (c.1.Success? ==> OneOpen(c.0, r, epoch, issued, None))
  {
    hide RequestOf, Saved;
    DeskSettles(desk, r, epoch, issued, open, id, given, now);
  }

  lemma NoneOpenMute(k: Kernel, desk: Store)
    requires k.phase.Idle? && k.state.status == WAITING_INTERRUPT
    requires OneOpen(desk, k.state.runId, k.state.epoch, k.issued, None)
    ensures Mute(k.(desk := desk))
  {
    hide RequestOf;
  }

  lemma LiveNotMute(k: Kernel, now: int)
    requires Waits(k, now)
    ensures !Mute(k)
  {
    hide RequestOf;
  }

  /** Main result: a resume through a runtime with an outdated copy never changes the stored run or its
      checkpoints. But it takes the run's live request away, so that the run can no longer be answered,
      exactly when the copy waits for an interrupt itself and the answer names the live request and the
      epoch of the run; an answer that leaves the epoch to the runtime never does. */
  lemma OutdatedAnswerExactly(setup: Setup, o: Origin, k: Kernel, copy: RunState, payload: ResumePayload, now: int)
    requires Inv(setup, o, k) && Waits(k, now) && OutdatedCopy(k, copy)
    ensures
      var x := Resume(setup, Seen(k, copy), payload, now);
      && x.stored == k.stored && x.lineage == k.lineage
      && (Mute(k.(desk := x.desk)) <==>
            && copy.status == WAITING_INTERRUPT && copy.pendingInterruptId.Some?
            && payload.Answer? && Some(payload.interruptId) == k.state.pendingInterruptId
               && payload.epoch == Some(k.state.epoch))
  {
    hide Inv, Mute, RequestOf, Settled, Bumped, ResumeInterrupt, ResumeApproval, Live;
    InterruptLoose(setup, o, k);
    StoredEpoch(o, k);
    LiveNotMute(k, now);
    var d, open := Seen(k, copy), k.state.pendingInterruptId.value;
    if copy.status == WAITING_APPROVAL {
      OutdatedApproval(setup, d, payload);
    } else if copy.status == WAITING_INTERRUPT && copy.pendingInterruptId.Some? && payload.Answer? {
      OutdatedInterrupt(setup, d, payload, now);
      var given := payload.epoch.GetOr(copy.epoch);
      SettlesOrNot(k.desk, k.state.runId, k.state.epoch, k.issued, open, payload.interruptId, given, now);
      var c := Settled(k.desk, k.state.runId, payload.interruptId, Some(given), now);
      if c.1.Success? {
        DeskBumped(c.0, k.state.runId, k.state.epoch, k.issued, None);
        NoneOpenMute(k, Bumped(c.0, k.state.runId));
      }
    } else if copy.status == WAITING_INTERRUPT {
      NothingAnswered(setup, d, payload, now);
    }
  }

  lemma NothingAnswered(setup: Setup, k: Kernel, payload: ResumePayload, now: int)
    requires k.state.pendingInterruptId.None? || !payload.Answer?
    ensures Settle(ResumeInterrupt(setup, k, payload, now)) == k
  {
  }

  lemma StoredEpoch(o: Origin, k: Kernel)
    requires Storage(o, k)
    ensures k.stored.Some? && k.stored.value.epoch == k.state.epoch
  {
    hide Linked;
  }

  // ---- the run nobody can answer ----

  lemma TendedMute(k: Kernel, l: Label)
    requires Mute(k)
    ensures Mute(k.(desk := Tended(k.desk, k.state.runId, l)))
  {
    hide RequestOf, Tended, Live, Due;
    forall i ensures Fades(RequestOf(k.desk, k.state.runId, i),
        RequestOf(Tended(k.desk, k.state.runId, l), k.state.runId, i), l) {
      TendedFades(k.desk, k.state.runId, l, i);
    }
  }

  lemma CallMute(setup: Setup, k: Kernel, payload: ResumePayload, now: int)
    requires Mute(k)
    ensures
      var n := Resume(setup, k, payload, now);
      n.state == k.state && n.stored == k.stored && n.desk == k.desk && n.phase == k.phase
  {
    hide RequestOf, Saved, Bumped, Save, FollowContinuation, Read;
  }

  lemma NextMute(setup: Setup, k: Kernel, l: Label)
    requires Mute(k)
    ensures Mute(Next(setup, k, l)) && Next(setup, k, l).state == k.state && Next(setup, k, l).stored == k.stored
  {
    hide RequestOf, Resume, Iterate, Tended;
    TendedMute(k, l);
    if l.Call? {
      CallMute(setup, k, l.payload, l.now);
    }
  }

  /** Whatever is tried afterwards through an up-to-date runtime, the run waits for good. */
  lemma {:induction false} MuteForGood(setup: Setup, k: Kernel, labels: seq<Label>)
    requires Mute(k)
    ensures
      var n := Run(setup, k, labels);
      n.state == k.state && n.stored == k.stored && n.phase.Idle? && n.state.status == WAITING_INTERRUPT
    decreases |labels|
  {
    hide Next, RequestOf;
    if labels != [] {
      NextMute(setup, k, labels[0]);
      MuteForGood(setup, Next(setup, k, labels[0]), labels[1..]);
    }
  }
}
