/** Why an action has its status: over every run, each change has exactly one kind of cause. */
module QueueStatus {
  import opened Lists
  import opened UndoSteps
  import opened CloudWrite
  import opened CloudLaws
  import opened Queue
  import opened QueueInvariants
  import opened QueueSteps
  import opened QueueRuns

  // ---- Causes ----

  ghost predicate Becomes(s: State, t: State, n: nat, status: Status) {
    n < |s.actions| && n < |t.actions| && s.actions[n].status != status && t.actions[n].status == status
  }

  /** A returned write reports no error for this action. */
  ghost predicate Earned(s: State, e: Event, n: nat) {
    && e.WorkerDone? && e.key in s.workers && s.workers[e.key].Writing? && n in s.workers[e.key].batch
    && ValidNumbers(s, s.workers[e.key].batch)
    && var batch := s.workers[e.key].batch;
       var outcome := OutcomeOf(s, e.key, batch, e.call);
       && (outcome.Unchanged? || outcome.Written?) && |outcome.results| == |batch|
       && outcome.results[IndexOf(batch, n)].error.None?
  }

  /** An exception without a text ended the write or the transfer of this action. */
  ghost predicate EndedSilently(s: State, e: Event, n: nat) {
    || (e.WorkerDone? && e.key in s.workers && s.workers[e.key].Writing? && n in s.workers[e.key].batch
        && e.call.Raised? && e.call.text == "")
    || (e.TransferEnd? && e.action == n && n in s.transit && n < |s.actions| && s.actions[n].op.Attach?
        && s.actions[n].status != Canceled && e.prepared.NotSent? && e.prepared.text == "")
  }

  /** A write that held the action ended: with an error for it, or as a whole and not without a text. */
  ghost predicate FailedInWrite(s: State, e: Event, n: nat) {
    && e.WorkerDone? && e.key in s.workers && s.workers[e.key].Writing? && n in s.workers[e.key].batch
    && ValidNumbers(s, s.workers[e.key].batch)
    && var batch := s.workers[e.key].batch;
       var outcome := OutcomeOf(s, e.key, batch, e.call);
       if outcome.Unchanged? || outcome.Written?
       then |outcome.results| == |batch| && outcome.results[IndexOf(batch, n)].error.Some?
       else !(e.call.Raised? && e.call.text == "")
  }

  /** The bytes of the action were being sent, and that ended with an error text. */
  ghost predicate FailedInTransfer(s: State, e: Event, n: nat) {
    && e.TransferEnd? && e.action == n && n in s.transit && n < |s.actions| && s.actions[n].status == Transferring
    && e.prepared.NotSent? && e.prepared.text != ""
  }

  /** `undo` consumed the capability of a deferred submission that holds the action. */
  ghost predicate TakenBack(s: State, e: Event, n: nat)
    requires StoreFits(s)
  {
    && e.UndoBegin? && CanTake(s, e.action, e.session)
    && var group := s.groups[Offered(s, e.action, e.session)]; group.pending && n in group.actions
  }

  /** `api.undo` returned for a submission that holds the action. */
  ghost predicate Reversed(s: State, e: Event, n: nat) {
    && e.UndoRecord? && e.run < |s.runs| && s.runs[e.run].phase == Remote && InverseDone(s, e.run, e.cloud)
    && n in s.groups[s.runs[e.run].group].actions
  }

  /** The one cause of each status. */
  ghost predicate Causes(s: State, e: Event, n: nat, status: Status)
    requires StoreFits(s) && n < |s.actions|
  {
    match status
    case Queued => false
    case Transferring => e == TransferBegin(n) && n in s.unsent && s.actions[n].status == Queued
    case Ready =>
      e.TransferEnd? && e.action == n && n in s.transit && s.actions[n].status == Transferring && e.prepared.Sent?
    case Applying =>
      e.WorkerCollect? && e.key in s.workers && s.workers[e.key].Collecting? && Batchable(s, e.key, n)
    case Done => Earned(s, e, n) || EndedSilently(s, e, n)
    case Failed => FailedInWrite(s, e, n) || FailedInTransfer(s, e, n)
    case Undone => Reversed(s, e, n)
    case Canceled =>
      || (e == Cancel(n) && s.actions[n].status == Queued)
      || TakenBack(s, e, n)
      || (e.Reset? && s.actions[n].status.Waiting() && s.actions[n].status != Applying)
  }

  // ---- Event by event ----

  lemma {:induction false} ReturnedStatus(s: State, key: Key, batch: seq<nat>, results: seq<OpResult>,
                                          write: Option<Write>, n: nat)
    requires StoreFits(s) && |results| == |batch| && n < |s.actions|
    requires write.Some? ==> |write.value.receipt.steps| == |batch|
    ensures var t := WriteReturned(s, key, batch, results, write);
      |t.actions| == |s.actions| && t.actions[n].status
        == if n in batch then Outcome(results[IndexOf(batch, n)].error.Some?) else s.actions[n].status
  {
    hide FinishedBelow, Lookup, IndexOf, HasPending;
  }

  lemma FailedStatus(s: State, key: Key, batch: seq<nat>, blank: bool, n: nat)
    requires ValidNumbers(s, batch) && n < |s.actions|
    ensures var t := WriteFailed(s, key, batch, blank);
      |t.actions| == |s.actions| && t.actions[n].status == if n in batch then Outcome(!blank) else s.actions[n].status
  {
    hide FinishedBelow, InvalidateAll;
  }

  lemma WriteCauses(s: State, e: Event, n: nat, status: Status)
    requires Registry(s) && Workers(s) && Sane(s) && e.WorkerDone? && n < |s.actions|
    ensures StoreFits(s) && (Becomes(s, Next(s, e), n, status) <==> Causes(s, e, n, status))
  {
    hide Next, EndsAs, EndsFor, Sane, Registry, OutcomeOf, IndexOf;
    SaneParts(s);
    if e.key in s.workers && s.workers[e.key].Writing? {
      assert WritesBatch(s, e.key, s.workers[e.key].batch);
      var ending := DoneEnds(s, e.key, e.call);
      EndingCauses(s, e, n, ending, status);
    } else {
      DoneIgnored(s, e.key, e.call);
    }
  }

  lemma EndingCauses(s: State, e: Event, n: nat, ending: Ending, status: Status)
    requires Sane(s) && e.WorkerDone? && e.key in s.workers && s.workers[e.key].Writing? && n < |s.actions|
    requires StoreFits(s) && ValidNumbers(s, s.workers[e.key].batch) && WritesBatch(s, e.key, s.workers[e.key].batch)
    requires EndsAs(s, e.key, s.workers[e.key].batch, ending, Next(s, e))
    requires EndsFor(s, e.key, s.workers[e.key].batch, e.call, ending)
    ensures Becomes(s, Next(s, e), n, status) <==> Causes(s, e, n, status)
  {
    hide Next, Sane, WriteFailed, WriteReturned, Happened, OpsOf, IndexOf, ApplyOutcome, WriteOf;
    var batch := s.workers[e.key].batch;
    match ending {
      case Lost(blank) => FailedStatus(s, e.key, batch, blank, n);
      case Back(results, write) => ReturnedStatus(s, e.key, batch, results, write, n);
    }
  }

  lemma TransferBeginCauses(s: State, e: Event, n: nat, status: Status)
    requires Registry(s) && StoreFits(s) && e.TransferBegin? && n < |s.actions|
    ensures Becomes(s, TransferBegun(s, e.action), n, status) <==> Causes(s, e, n, status)
  {
    hide SetAll;
  }

  lemma TransferEndCauses(s: State, e: Event, n: nat, status: Status)
    requires Registry(s) && StoreFits(s) && e.TransferEnd? && n < |s.actions|
    ensures Becomes(s, TransferEnded(s, e.action, e.prepared), n, status) <==> Causes(s, e, n, status)
  {
    hide NotifyAll, SettleAll;
  }

  lemma TookCauses(s: State, e: Event, n: nat, status: Status)
    requires Registry(s) && StoreFits(s) && e.UndoBegin? && CanTake(s, e.action, e.session) && n < |s.actions|
    ensures Becomes(s, Took(s, e.action, e.session), n, status) <==> Causes(s, e, n, status)
  {
    hide Lookup, Registry, CanTake, InvalidateAll;
    TakenAreQueued(s, e.action, e.session);
  }

  lemma TakenAreQueued(s: State, n: nat, session: Session)
    requires StoreFits(s) && CanTake(s, n, session)
    ensures var group := s.groups[Offered(s, n, session)];
      group.pending ==> forall m :: m in group.actions ==> m < |s.actions| && s.actions[m].status == Queued
    ensures n < |s.actions| && Offered(s, n, session) < |s.groups|
  {
    hide Lookup;
  }

  lemma RefusedCauses(s: State, e: Event, n: nat, status: Status)
    requires StoreFits(s) && e.UndoBegin? && !CanTake(s, e.action, e.session) && n < |s.actions|
    ensures Becomes(s, AfterRefusal(s, e.action), n, status) <==> Causes(s, e, n, status)
  {
    hide Lookup, CanTake;
  }

  lemma RecordCauses(s: State, e: Event, n: nat, status: Status)
    requires StoreFits(s) && Runs(s) && e.UndoRecord? && n < |s.actions|
    ensures Becomes(s, UndoRecorded(s, e.run, InverseDone(s, e.run, e.cloud)), n, status) <==> Causes(s, e, n, status)
  {
    hide InverseOutcome;
    if e.run < |s.runs| && s.runs[e.run].phase.Remote? {
      assert AllDone(s, s.groups[s.runs[e.run].group].actions);
    }
  }

  lemma CollectCauses(s: State, e: Event, n: nat, status: Status)
    requires StoreFits(s) && e.WorkerCollect? && n < |s.actions|
    ensures Becomes(s, Collected(s, e.key), n, status) <==> Causes(s, e, n, status)
  {
    hide ReadyBatch;
    assert n in ReadyBatch(s, e.key) <==> Batchable(s, e.key, n);
  }

  lemma ResetCauses(s: State, e: Event, n: nat, status: Status)
    requires StoreFits(s) && Registry(s) && e.Reset? && n < |s.actions|
    ensures Becomes(s, WasReset(s), n, status) <==> Causes(s, e, n, status)
  {
    hide ResetBelow, NotifyAll, InvalidateAll, ToSet;
    assert n in ResetBelow(s, |s.actions|) <==> Unstarted(s, n);
  }

  lemma CancelCauses(s: State, e: Event, n: nat, status: Status)
    requires StoreFits(s) && Registry(s) && Sane(s) && e.Cancel? && n < |s.actions|
    ensures Becomes(s, Cancelled(s, e.action), n, status) <==> Causes(s, e, n, status)
  {
    hide NotifyAll, SettleAll, InvalidateAll, Sane;
  }

  lemma StillCauses(s: State, e: Event, n: nat, status: Status)
    requires Registry(s) && Sane(s) && StoreFits(s) && IsStill(e) && n < |s.actions|
    ensures Becomes(s, Next(s, e), n, status) <==> Causes(s, e, n, status)
  {
    hide Next, Registry, Sane, CanTake;
    StillSteps(s, e);
  }

  lemma SubmissionCauses(s: State, e: Event, n: nat, status: Status)
    requires Sane(s) && StoreFits(s) && IsSubmission(e) && n < |s.actions|
    ensures Becomes(s, Next(s, e), n, status) <==> Causes(s, e, n, status)
  {
    hide Next, Sane;
    if Next(s, e) != s {
      SubmissionAppends(s, e);
      assert Next(s, e).actions[..|s.actions|][n] == Next(s, e).actions[n];
    }
  }

  lemma NextIs(s: State, e: Event)
    requires Sane(s)
    ensures e.TransferBegin? ==> Next(s, e) == TransferBegun(s, e.action)
    ensures e.TransferEnd? ==> Next(s, e) == TransferEnded(s, e.action, e.prepared)
    ensures e.WorkerCollect? ==> Next(s, e) == Collected(s, e.key)
    ensures e.Reset? ==> Next(s, e) == WasReset(s)
    ensures e.Cancel? ==> Next(s, e) == Cancelled(s, e.action)
  {
    hide TransferBegun, TransferEnded, Collected, WasReset, Cancelled, Submitted, UploadSubmitted, Applied,
         UndoFinished, Woken, Looked, Probed, CanTake, InverseDone, Sane;
  }

  lemma StepCauses(s: State, e: Event, n: nat, status: Status)
    requires Registry(s) && Workers(s) && Runs(s) && Sane(s) && n < |s.actions|
    ensures StoreFits(s) && (Becomes(s, Next(s, e), n, status) <==> Causes(s, e, n, status))
  {
    hide Next, Registry, Workers, Runs, Sane, Causes, Becomes, CanTake, Took, AfterRefusal, InverseDone;
    SaneParts(s);
    NextIs(s, e);
    NextUndoEvents(s, e);
    match e {
      case WorkerDone(_, _) => WriteCauses(s, e, n, status);
      case Submit(_, _, _) => SubmissionCauses(s, e, n, status);
      case SubmitUpload(_, _, _, _) => SubmissionCauses(s, e, n, status);
      case TransferBegin(_) => TransferBeginCauses(s, e, n, status);
      case TransferEnd(_, _) => TransferEndCauses(s, e, n, status);
      case UndoBegin(m, session) =>
        if CanTake(s, m, session) { TookCauses(s, e, n, status); } else { RefusedCauses(s, e, n, status); }
      case UndoRecord(_, _) => RecordCauses(s, e, n, status);
      case WorkerCollect(_) => CollectCauses(s, e, n, status);
      case Reset => ResetCauses(s, e, n, status);
      case Cancel(_) => CancelCauses(s, e, n, status);
      case _ => StillCauses(s, e, n, status);
    }
  }

  /** Over every run: an action comes to a status exactly when the next event is a cause of it. */
  lemma {:induction false} StatusIsCaused(events: seq<Event>, e: Event, n: nat, status: Status)
    requires n < |Reached(events).actions|
    ensures StoreFits(Reached(events))
    ensures Becomes(Reached(events), Reached(events + [e]), n, status) <==> Causes(Reached(events), e, n, status)
  {
    hide Reached, Holds, Next, Causes, Becomes, Registry, Workers, Runs, Sane;
    ReachedOneMore(events, e);
    HoldsParts(Reached(events));
    StepCauses(Reached(events), e, n, status);
  }

  // ---- What an action carries ----

  /** The transfer of a waiting upload ends, and its bytes are in the storage. */
  ghost predicate Delivers(s: State, e: Event, n: nat) {
    && e.TransferEnd? && e.action == n && e.prepared.Sent?
    && n in s.transit && n < |s.actions| && s.actions[n].op.Attach? && s.actions[n].status == Transferring
  }

  /** Over every run: an action stays what was submitted, but for the file and the duration that its own transfer
      reports. */
  lemma {:induction false} OpsAreKept(events: seq<Event>, e: Event, n: nat)
    requires n < |Reached(events).actions|
    ensures var s, t := Reached(events), Reached(events + [e]);
      n < |t.actions| && t.actions[n].op == if Delivers(s, e, n)
      then s.actions[n].op.(fileId := e.prepared.fileId, seconds := e.prepared.seconds) else s.actions[n].op
  {
    hide Reached, Holds, Next, Becomes, Causes, Registry, Workers, Runs, Sane, TransferEnded, ActionStep;
    var s := Reached(events);
    ReachedOneMore(events, e);
    HoldsParts(s);
    NextSteps(s, e);
    NextIs(s, e);
    StepCauses(s, e, n, Ready);
    assert ActionStep(s.actions[n], Next(s, e).actions[n]);
    ReadyIsDelivered(s, Next(s, e), e, n);
    if Delivers(s, e, n) { DeliveredOp(s, e, n); }
  }

  lemma DeliveredOp(s: State, e: Event, n: nat)
    requires Delivers(s, e, n)
    ensures var t := TransferEnded(s, n, e.prepared);
      n < |t.actions| && t.actions[n].op == s.actions[n].op.(fileId := e.prepared.fileId, seconds := e.prepared.seconds)
  {
    hide SettleAll, NotifyAll;
  }

  lemma ReadyIsDelivered(s: State, t: State, e: Event, n: nat)
    requires Registry(s) && StoreFits(s) && n < |s.actions| && n < |t.actions| && ActionStep(s.actions[n], t.actions[n])
    requires Becomes(s, t, n, Ready) <==> Causes(s, e, n, Ready)
    ensures t.actions[n].op == s.actions[n].op || Delivers(s, e, n)
  {
  }
}
