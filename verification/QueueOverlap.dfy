/** Writes and inverses of one Tonie: what keeps them apart, and the two interleavings in which the queue's guards
    do not. */
module QueueOverlap {
  import opened Planner
  import opened CloudWrite
  import opened Queue
  import opened QueueInvariants
  import opened QueueSteps
  import opened QueueGrants
  import opened QueueRuns

  // ---- The undoing set ----

  /** Every inverse that runs blocks the writes of its Tonie. */
  ghost predicate Guarded(s: State) {
    forall i :: 0 <= i < |s.runs| && s.runs[i].phase.Remote? ==> s.runs[i].key in s.undoing
  }

  /** An `undo` call does not finish while an inverse of the same Tonie runs. */
  ghost predicate Alone(s: State, e: Event) {
    (e.UndoFinish? && e.run < |s.runs| && s.runs[e.run].phase.Recorded?)
      ==> forall i :: 0 <= i < |s.runs| && s.runs[i].key == s.runs[e.run].key ==> !s.runs[i].phase.Remote?
  }

  lemma FinishedGuarded(s: State, run: nat)
    requires Guarded(s)
    ensures Guarded(UndoFinished(s, run)) <==> Alone(s, UndoFinish(run))
  {
    var t := UndoFinished(s, run);
    if run < |s.runs| && s.runs[run].phase.Recorded? && !Alone(s, UndoFinish(run)) {
      var i :| 0 <= i < |s.runs| && s.runs[i].key == s.runs[run].key && s.runs[i].phase.Remote?;
      assert t.runs[i] == s.runs[i];
    }
  }

  /** `_undoing` is a set: a step keeps every running inverse guarded unless another undo of its Tonie finishes. */
  lemma NextGuarded(s: State, e: Event)
    requires Sane(s) && Guarded(s)
    ensures Guarded(Next(s, e)) <==> Alone(s, e)
  {
    hide Next, Sane, CanTake, Took, AfterRefusal, UndoFinished;
    NextUndoEvents(s, e);
    SaneStore(s);
    if e.UndoFinish? {
      FinishedGuarded(s, e.run);
    } else if e.UndoBegin? {
      if CanTake(s, e.action, e.session) {
        var g := TookChanges(s, e.action, e.session);
      } else {
        RefusedRuns(s, e.action);
      }
    } else if !e.UndoRecord? {
      NextRunsSame(s, e);
    }
  }

  // ---- Writes and inverses ----

  /** No write of a Tonie is in flight while an inverse of it runs in the cloud. */
  ghost predicate Exclusive(s: State) {
    forall i :: 0 <= i < |s.runs| && s.runs[i].phase.Remote? ==> !IsWriting(s, s.runs[i].key)
  }

  ghost predicate IsWriting(s: State, key: Key) {
    key in s.workers && s.workers[key].Writing?
  }

  /** The write of `key` in flight, if there is one, is the same. */
  ghost predicate SameWriting(s: State, t: State, key: Key) {
    IsWriting(t, key) == IsWriting(s, key) && (IsWriting(t, key) ==> t.workers[key] == s.workers[key])
  }

  lemma RegisteredWriting(s: State, key: Key, ops: seq<Op>, session: Session, other: Key)
    requires StoreFits(s)
    ensures SameWriting(s, Registered(s, key, ops, session), other)
  {
    hide Kept, Newest, DefersDeletes, InvalidateAll, NewActions, Numbers;
  }

  lemma SubmissionWriting(s: State, e: Event, key: Key)
    requires Sane(s) && IsSubmission(e)
    ensures SameWriting(s, Next(s, e), key)
  {
    hide Next, Registered, Sane;
    SaneStore(s);
    if Next(s, e) != s {
      SubmissionRegisters(s, e);
      RegisteredWriting(s, e.key, Submission(e), e.session, key);
    }
  }

  /** A write in flight after a step was in flight before it, with the same batch, or is what its worker
      just collected. */
  lemma WritingBefore(s: State, e: Event, key: Key)
    requires Registry(s) && Runs(s) && Sane(s) && IsWriting(Next(s, e), key)
    ensures key in s.workers && (s.workers[key].Writing? ==> s.workers[key] == Next(s, e).workers[key])
    ensures !IsWriting(s, key) ==>
      && e == WorkerCollect(key) && Next(s, e) == Collected(s, key) && ReadyBatch(s, key) != []
      && Next(s, e).workers[key] == Writing(ReadyBatch(s, key))
  {
    hide Next, Sane, Registry, Runs, EndsAs, ReadyBatch;
    if IsSubmission(e) {
      SubmissionWriting(s, e, key);
    } else if e.WorkerDone? {
      if IsWriting(s, e.key) {
        WritingIsValid(s, e.key);
        var ending := DoneEnds(s, e.key, e.call);
        SaneStore(s);
        EndingTouches(s, e.key, s.workers[e.key].batch, ending, Next(s, e));
      } else {
        DoneIgnored(s, e.key, e.call);
      }
    } else if e.WorkerCollect? {
      NextIsCollected(s, e.key);
    } else if e.UndoBegin? || e.UndoRecord? || e.UndoFinish? {
      UndoSameWrites(s, e);
    } else {
      OtherSameWrites(s, e);
    }
  }

  /** A write starts only when its worker collects a batch that is not empty. */
  lemma WritesStartByCollecting(s: State, e: Event, key: Key)
    requires Registry(s) && Runs(s) && Sane(s)
    requires !IsWriting(s, key) && IsWriting(Next(s, e), key)
    ensures e == WorkerCollect(key) && ReadyBatch(s, key) != []
  {
    hide Next, Sane, Registry, Runs, ReadyBatch, Collected;
    WritingBefore(s, e, key);
  }

  lemma WritingIsValid(s: State, key: Key)
    requires Sane(s) && IsWriting(s, key)
    ensures ValidNumbers(s, s.workers[key].batch)
  {
  }

  /** An inverse that runs after a step was running before it, or starts with it. */
  lemma RemoteBefore(s: State, e: Event, i: nat)
    requires Sane(s) && i < |Next(s, e).runs| && Next(s, e).runs[i].phase.Remote?
    ensures i < |s.runs| ==> s.runs[i] == Next(s, e).runs[i]
    ensures i >= |s.runs| ==>
      e.UndoBegin? && StartsInverse(s, e.action, e.session) && s.actions[e.action].key == Next(s, e).runs[i].key
  {
    hide Next, CanTake, Took, AfterRefusal, Sane, Lookup;
    SaneStore(s);
    NextUndoEvents(s, e);
    if e.UndoBegin? {
      if CanTake(s, e.action, e.session) {
        TookOffered(s, e.action, e.session);
      } else {
        RefusedRuns(s, e.action);
      }
    } else if !e.UndoRecord? && !e.UndoFinish? {
      NextRunsSame(s, e);
    }
  }

  lemma TookOffered(s: State, n: nat, session: Session)
    requires StoreFits(s) && CanTake(s, n, session)
    ensures Offered(s, n, session) < |s.groups|
    ensures var g := Offered(s, n, session);
      Took(s, n, session).runs == s.runs + [UndoRun(s.actions[n].key, g, s.groups[g].receipt,
                                                    if s.groups[g].receipt.Some? then Remote else Recorded)]
    ensures Took(s, n, session).workers == s.workers
  {
    hide Lookup;
  }

  lemma InverseMeetsNoWrite(s: State, n: nat, session: Session)
    requires Store(s) && Quiet(s) && Workers(s) && ReceiptsCarried(s) && StartsInverse(s, n, session)
    ensures n < |s.actions| && !IsWriting(s, s.actions[n].key)
  {
    hide CanTake, Store, Quiet, Workers, ReceiptsCarried;
    OfferedIsOwn(s, n, session);
    ReceiptIsQuiescent(s, Offered(s, n, session));
  }

  lemma NextExclusive(s: State, e: Event)
    requires Holds(s) && Guarded(s) && Exclusive(s)
    ensures Sane(s) && Exclusive(Next(s, e))
  {
    hide Holds, Next, Sane, Registry, Runs, Workers, Store, Quiet, ReceiptsCarried, StartsInverse;
    HoldsParts(s);
    var t := Next(s, e);
    forall i | 0 <= i < |t.runs| && t.runs[i].phase.Remote? ensures !IsWriting(t, t.runs[i].key) {
      var key := t.runs[i].key;
      RemoteBefore(s, e, i);
      if i >= |s.runs| { InverseMeetsNoWrite(s, e.action, e.session); }
      if IsWriting(t, key) {
        WritesStartByCollecting(s, e, key);
        assert i < |s.runs| && key in s.undoing;
        UndoingIsIdle(s, key);
      }
    }
  }

  lemma UndoingIsIdle(s: State, key: Key)
    requires key in s.undoing
    ensures ReadyBatch(s, key) == []
  {
    if ReadyBatch(s, key) != [] {
      var n := ReadyIsPending(s, key);
    }
  }

  // ---- Over whole runs ----

  lemma InitGuarded()
    ensures Guarded(INIT) && Exclusive(INIT)
  {
  }

  ghost predicate AllAlone(events: seq<Event>) {
    forall i :: 0 <= i < |events| ==> Alone(Reached(events[..i]), events[i])
  }

  lemma {:induction false} AloneRunsAreGuarded(events: seq<Event>)
    requires AllAlone(events)
    ensures Guarded(Reached(events)) && Exclusive(Reached(events))
    decreases |events|
  {
    hide Next, Alone, Guarded, Exclusive, Holds;
    if events == [] {
      InitGuarded();
    } else {
      var n := |events| - 1;
      forall i | 0 <= i < n ensures Alone(Reached(events[..n][..i]), events[..n][i]) {
        assert events[..n][..i] == events[..i];
      }
      AloneRunsAreGuarded(events[..n]);
      HoldsParts(Reached(events[..n]));
      NextGuarded(Reached(events[..n]), events[n]);
      NextExclusive(Reached(events[..n]), events[n]);
    }
  }

  /** Every running inverse blocks its Tonie throughout a run exactly when no other undo of that Tonie finishes
      meanwhile. */
  lemma GuardedIffAlone(events: seq<Event>)
    ensures (forall i :: 0 <= i <= |events| ==> Guarded(Reached(events[..i]))) <==> AllAlone(events)
  {
    hide Reached, Next, Guarded, Alone, Holds, Exclusive;
    if AllAlone(events) {
      forall i | 0 <= i <= |events| ensures Guarded(Reached(events[..i])) {
        AlonePrefix(events, i);
        AloneRunsAreGuarded(events[..i]);
      }
    } else {
      var i :| 0 <= i < |events| && !Alone(Reached(events[..i]), events[i]);
      ReachedOneMore(events[..i], events[i]);
      assert events[..i] + [events[i]] == events[..i + 1];
      HoldsParts(Reached(events[..i]));
      if Guarded(Reached(events[..i])) { NextGuarded(Reached(events[..i]), events[i]); }
    }
  }

  lemma AlonePrefix(events: seq<Event>, i: nat)
    requires AllAlone(events) && i <= |events|
    ensures AllAlone(events[..i])
  {
    hide Reached, Alone, Holds;
    forall j | 0 <= j < i ensures Alone(Reached(events[..i][..j]), events[..i][j]) {
      assert events[..i][..j] == events[..j];
    }
  }

  /** In such a run no write of a Tonie is ever in flight while an inverse of that Tonie runs. */
  lemma {:induction false} WritesAndInversesExclude(events: seq<Event>, i: nat)
    requires AllAlone(events) && i < |Reached(events).runs| && Reached(events).runs[i].phase.Remote?
    ensures !IsWriting(Reached(events), Reached(events).runs[i].key)
      && ReadyBatch(Reached(events), Reached(events).runs[i].key) == []
  {
    hide Reached, Holds, AllAlone, IsWriting, ReadyBatch;
    AloneRunsAreGuarded(events);
    UndoingIsIdle(Reached(events), Reached(events).runs[i].key);
  }

  // ---- From a blocked Tonie on ----

  /** Run `i` is an inverse of `key` that is under way. */
  ghost predicate Inverting(s: State, i: nat, key: Key) {
    i < |s.runs| && s.runs[i].phase.Remote? && s.runs[i].key == key
  }

  /** A write of `key` is in flight while the inverse of run `i` runs. */
  ghost predicate Beside(t: State, i: nat, key: Key) {
    Inverting(t, i, key) && IsWriting(t, key)
  }

  /** In the rest of a run no undo call finishes beside a running inverse of its Tonie. */
  ghost predicate AloneFrom(events: seq<Event>, more: seq<Event>) {
    forall j :: 0 <= j < |more| ==> Alone(Reached(events + more[..j]), more[j])
  }

  lemma RunsGrow(s: State, e: Event)
    requires Sane(s)
    ensures |s.runs| <= |Next(s, e).runs|
  {
    hide Next, Sane, CanTake, Took, AfterRefusal;
    SaneStore(s);
    NextUndoEvents(s, e);
    if e.UndoBegin? {
      if CanTake(s, e.action, e.session) { TookOffered(s, e.action, e.session); } else { RefusedRuns(s, e.action); }
    } else if !e.UndoRecord? && !e.UndoFinish? {
      NextRunsSame(s, e);
    }
  }

  lemma {:induction false} RunsOnlyGrow(events: seq<Event>, more: seq<Event>)
    ensures |Reached(events).runs| <= |Reached(events + more).runs|
    decreases |more|
  {
    hide Reached, Holds, Next;
    if more == [] {
      assert events + more == events;
    } else {
      var n := |more| - 1;
      RunsOnlyGrow(events, more[..n]);
      ReachedLast(events, more);
      HoldsParts(Reached(events + more[..n]));
      RunsGrow(Reached(events + more[..n]), more[n]);
    }
  }

  lemma BlockStep(s: State, e: Event, i: nat, key: Key)
    requires Registry(s) && Runs(s) && Sane(s) && Alone(s, e)
    requires Inverting(s, i, key) && key in s.undoing && !IsWriting(s, key)
    ensures key in Next(s, e).undoing && !IsWriting(Next(s, e), key)
  {
    hide Next, Sane, Registry, Runs, CanTake, Took, AfterRefusal, IsWriting;
    SaneStore(s);
    NextUndoEvents(s, e);
    UndoingIsIdle(s, key);
    if IsWriting(Next(s, e), key) { WritesStartByCollecting(s, e, key); }
    if e.UndoBegin? {
      if CanTake(s, e.action, e.session) {
        var g := TookChanges(s, e.action, e.session);
      } else {
        RefusedRuns(s, e.action);
      }
    } else if !e.UndoRecord? && !e.UndoFinish? {
      NextRunsSame(s, e);
    }
  }

  /** A blocked Tonie meets no write as long as its inverse runs, whatever happens, unless another undo
      of it finishes. */
  lemma {:induction false} BlockHolds(events: seq<Event>, more: seq<Event>, i: nat, key: Key)
    requires Inverting(Reached(events), i, key) && key in Reached(events).undoing && !IsWriting(Reached(events), key)
    requires AloneFrom(events, more) && Inverting(Reached(events + more), i, key)
    ensures key in Reached(events + more).undoing && !IsWriting(Reached(events + more), key)
    decreases |more|
  {
    hide Reached, Holds, Next, Alone, IsWriting, Sane;
    if more == [] {
      assert events + more == events;
    } else {
      var n := |more| - 1;
      var s := Reached(events + more[..n]);
      forall j | 0 <= j < n ensures Alone(Reached(events + more[..n][..j]), more[..n][j]) {
        assert more[..n][..j] == more[..j];
      }
      ReachedLast(events, more);
      RunsOnlyGrow(events, more[..n]);
      HoldsParts(s);
      RemoteBefore(s, more[n], i);
      BlockHolds(events, more[..n], i, key);
      BlockStep(s, more[n], i, key);
    }
  }
}
