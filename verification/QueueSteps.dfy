/** The remaining invariants, step by step: workers, deferral, consumed capabilities and quiet receipts. */
module QueueSteps {
  import opened Lists
  import opened Planner
  import opened UndoSteps
  import opened CloudWrite
  import opened CloudLaws
  import opened Queue
  import opened QueueInvariants

  // ---- Workers ----

  /** No write starts or ends. */
  ghost predicate SameWrites(s: State, t: State) {
    && |t.actions| == |s.actions| && t.workers.Keys == s.workers.Keys
    && (forall k :: k in s.workers ==>
          (s.workers[k].Writing? || t.workers[k].Writing? ==> t.workers[k] == s.workers[k]))
    && (forall n :: 0 <= n < |s.actions| ==> (t.actions[n].status.Applying? <==> s.actions[n].status.Applying?))
  }

  lemma SameWritesKeep(s: State, t: State)
    requires Workers(s) && SameWrites(s, t) && ActionSteps(s, t)
    ensures Workers(t)
  {
    forall k | k in t.workers && t.workers[k].Writing? ensures WritesBatch(t, k, t.workers[k].batch) {
      assert WritesBatch(s, k, s.workers[k].batch);
    }
    forall n | 0 <= n < |t.actions| && t.actions[n].status.Applying? ensures InFlight(t, n) {
      assert InFlight(s, n);
    }
  }

  lemma UndoSameWrites(s: State, e: Event)
    requires Registry(s) && Runs(s) && Sane(s) && (e.UndoBegin? || e.UndoRecord? || e.UndoFinish?)
    ensures SameWrites(s, Next(s, e))
  {
    hide Next, CanTake, Took, AfterRefusal, UndoRecorded, SameWrites, Registry, Runs, Sane;
    NextUndoEvents(s, e);
    match e {
      case UndoRecord(run, cloud) => RecordSameWrites(s, run, InverseDone(s, run, cloud));
      case UndoFinish(run) => FinishSameWrites(s, run);
      case UndoBegin(n, session) =>
        SaneStore(s);
        if CanTake(s, n, session) { TookSameWrites(s, n, session); } else { RefusedSameWrites(s, n); }
    }
  }

  lemma SaneStore(s: State)
    requires Sane(s)
    ensures StoreFits(s)
  {
  }

  lemma RecordSameWrites(s: State, run: nat, confirmed: bool)
    requires Runs(s)
    ensures SameWrites(s, UndoRecorded(s, run, confirmed))
  {
    assert run < |s.runs| && s.runs[run].phase.Remote? ==> AllDone(s, s.groups[s.runs[run].group].actions);
  }

  lemma FinishSameWrites(s: State, run: nat)
    ensures SameWrites(s, UndoFinished(s, run))
  {
  }

  lemma TookSameWrites(s: State, n: nat, session: Session)
    requires StoreFits(s) && CanTake(s, n, session)
    ensures SameWrites(s, Took(s, n, session))
  {
    hide Lookup;
  }

  lemma RefusedSameWrites(s: State, n: nat)
    requires StoreFits(s)
    ensures SameWrites(s, AfterRefusal(s, n))
  {
    hide Lookup;
  }

  lemma OtherSameWrites(s: State, e: Event)
    requires Registry(s) && Sane(s)
    requires e.Tick? || e.Cancel? || e.TransferBegin? || e.TransferEnd? || e.Wake? || e.WorkerLook? || e.Reset?
      || e.Close? || e.Probe?
    ensures SameWrites(s, Next(s, e))
  {
    hide SameWrites, Registry, Sane;
    if IsStill(e) {
      StillSameWrites(s, e);
    } else {
      ChangeSameWrites(s, e);
    }
  }

  lemma StillSameWrites(s: State, e: Event)
    requires Sane(s) && (e.Tick? || e.Wake? || e.WorkerLook? || e.Close? || e.Probe?)
    ensures SameWrites(s, Next(s, e))
  {
    hide Applied, Submitted, UploadSubmitted, CanTake, Took, AfterRefusal, ReadyBatch, DeadlineBelow, InvalidateAll,
         Sane;
  }

  lemma ChangeSameWrites(s: State, e: Event)
    requires Registry(s) && Sane(s) && (e.Cancel? || e.TransferBegin? || e.TransferEnd? || e.Reset?)
    ensures SameWrites(s, Next(s, e))
  {
    hide Applied, Submitted, UploadSubmitted, CanTake, Took, AfterRefusal, ReadyBatch, DeadlineBelow, InvalidateAll,
         Sane;
  }

  lemma EnterWorkers(s: State, t: State, key: Key, batch: seq<nat>)
    requires Workers(s) && key in s.workers && !s.workers[key].Writing? && Ascends(batch)
    requires t.workers == s.workers[key := if batch == [] then Awake else Writing(batch)]
    requires |t.actions| == |s.actions| && forall n :: n in batch ==> n < |s.actions| && s.actions[n].key == key
    requires forall n :: 0 <= n < |s.actions| ==>
      t.actions[n] == if n in batch then s.actions[n].(status := Applying) else s.actions[n]
    requires forall n :: n in batch ==> s.actions[n].status.Waiting()
    ensures Workers(t)
  {
    forall k | k in t.workers && t.workers[k].Writing? ensures WritesBatch(t, k, t.workers[k].batch) {
      if k != key { assert WritesBatch(s, k, s.workers[k].batch); }
    }
    forall n | 0 <= n < |t.actions| && t.actions[n].status.Applying? ensures InFlight(t, n) {
      if s.actions[n].status.Applying? { assert InFlight(s, n); }
    }
  }

  lemma CollectedWorkers(s: State, key: Key)
    requires Workers(s)
    ensures Workers(Collected(s, key))
  {
    var t := Collected(s, key);
    if key in s.workers && s.workers[key].Collecting? {
      var batch := ReadyBatch(s, key);
      assert forall n :: n in batch ==> Batchable(s, key, n);
      hide Workers, BatchBelow;
      EnterWorkers(s, t, key, batch);
    }
  }

  lemma LeaveWorkers(s: State, t: State, key: Key, batch: seq<nat>)
    requires Workers(s) && key in s.workers && s.workers[key] == Writing(batch)
    requires t.workers == s.workers[key := Awake] && |t.actions| == |s.actions|
    requires forall n :: 0 <= n < |s.actions| ==>
      if n in batch then t.actions[n].key == s.actions[n].key && t.actions[n].status in {Done, Failed}
      else t.actions[n] == s.actions[n]
    ensures Workers(t)
  {
    assert WritesBatch(s, key, batch);
    forall k | k in t.workers && t.workers[k].Writing? ensures WritesBatch(t, k, t.workers[k].batch) {
      assert WritesBatch(s, k, s.workers[k].batch);
    }
    forall n | 0 <= n < |t.actions| && t.actions[n].status.Applying? ensures InFlight(t, n) {
      assert InFlight(s, n);
    }
  }

  lemma EndingWorkers(s: State, key: Key, batch: seq<nat>, ending: Ending, t: State)
    requires Workers(s) && StoreFits(s) && ValidNumbers(s, batch)
    requires key in s.workers && s.workers[key] == Writing(batch) && EndsAs(s, key, batch, ending, t)
    ensures Workers(t)
  {
    hide EndsAs, Workers;
    EndingTouches(s, key, batch, ending, t);
    LeaveWorkers(s, t, key, batch);
  }

  /** The end of a write settles its batch, and nothing else. */
  lemma EndingTouches(s: State, key: Key, batch: seq<nat>, ending: Ending, t: State)
    requires StoreFits(s) && ValidNumbers(s, batch) && EndsAs(s, key, batch, ending, t)
    ensures t.workers == s.workers[key := Awake] && |t.actions| == |s.actions|
    ensures forall n :: 0 <= n < |s.actions| ==>
      if n in batch then t.actions[n].key == s.actions[n].key && t.actions[n].status in {Done, Failed}
      else t.actions[n] == s.actions[n]
    ensures t.now == s.now && t.closed == s.closed && t.undoing == s.undoing && t.runs == s.runs
      && t.entered == s.entered
  {
    hide Happened, OpsOf, FinishedBelow;
  }

  lemma SubmissionWorkers(s: State, e: Event)
    requires Workers(s) && Sane(s) && IsSubmission(e)
    ensures Workers(Next(s, e))
  {
    hide Next, Registered, Workers, Sane;
    SaneStore(s);
    if Next(s, e) != s {
      SubmissionRegisters(s, e);
      var t := Registered(s, e.key, Submission(e), e.session);
      RegisteredTouches(s, e.key, Submission(e), e.session);
      AppendWorkers(s, Next(s, e), e.key);
    }
  }

  lemma RegisteredTouches(s: State, key: Key, ops: seq<Op>, session: Session)
    requires StoreFits(s)
    ensures var t := Registered(s, key, ops, session);
      && t.workers == EnsureWorker(s.workers, key)
      && |s.actions| <= |t.actions| && t.actions[..|s.actions|] == s.actions
      && forall n :: |s.actions| <= n < |t.actions| ==> t.actions[n].status.Queued? && t.actions[n].key == key
  {
    hide DefersDeletes, Kept, Newest, InvalidateAll, ToSet, EnsureWorker;
    var t := Registered(s, key, ops, session);
    assert t.actions[..|s.actions|] == s.actions;
  }

  lemma AppendWorkers(s: State, t: State, key: Key)
    requires Workers(s) && |s.actions| <= |t.actions| && t.actions[..|s.actions|] == s.actions
    requires forall n :: |s.actions| <= n < |t.actions| ==> t.actions[n].status.Queued? && t.actions[n].key == key
    requires t.workers.Keys == s.workers.Keys + {key}
    requires forall k :: k in t.workers && t.workers[k].Writing? ==> k in s.workers && t.workers[k] == s.workers[k]
    requires forall k :: k in s.workers && s.workers[k].Writing? ==> t.workers[k] == s.workers[k]
    ensures Workers(t)
  {
    forall n | 0 <= n < |s.actions| ensures t.actions[n] == s.actions[n] {
      assert t.actions[..|s.actions|][n] == t.actions[n];
    }
    forall k | k in t.workers && t.workers[k].Writing? ensures WritesBatch(t, k, t.workers[k].batch) {
      assert WritesBatch(s, k, s.workers[k].batch);
    }
    forall n | 0 <= n < |t.actions| && t.actions[n].status.Applying? ensures InFlight(t, n) {
      assert InFlight(s, n);
    }
  }

  lemma NextWorkers(s: State, e: Event)
    requires Registry(s) && Workers(s) && Runs(s) && Sane(s)
    ensures Workers(Next(s, e))
  {
    hide Next, Workers, SameWrites, ActionSteps;
    if IsSubmission(e) {
      SubmissionWorkers(s, e);
    } else if e.WorkerDone? {
      DoneWorkers(s, e.key, e.call);
    } else if e.WorkerCollect? {
      CollectedWorkers(s, e.key);
      NextIsCollected(s, e.key);
    } else {
      NextSteps(s, e);
      if e.UndoBegin? || e.UndoRecord? || e.UndoFinish? { UndoSameWrites(s, e); } else { OtherSameWrites(s, e); }
      SameWritesKeep(s, Next(s, e));
    }
  }

  lemma NextIsCollected(s: State, key: Key)
    requires Sane(s)
    ensures Next(s, WorkerCollect(key)) == Collected(s, key)
  {
  }

  /** How a worker's step out of `api.apply` ends, for whoever needs the case. */
  lemma DoneEnds(s: State, key: Key, call: ApplyCall) returns (ending: Ending)
    requires Sane(s) && key in s.workers && s.workers[key].Writing?
    ensures EndsAs(s, key, s.workers[key].batch, ending, Next(s, WorkerDone(key, call)))
    ensures EndsFor(s, key, s.workers[key].batch, call, ending)
  {
    hide Applied, EndsAs, EndsFor;
    ending := AppliedEnds(s, key, s.workers[key].batch, call);
  }

  lemma DoneIgnored(s: State, key: Key, call: ApplyCall)
    requires Sane(s) && !(key in s.workers && s.workers[key].Writing?)
    ensures Next(s, WorkerDone(key, call)) == s
  {
  }

  lemma DoneWorkers(s: State, key: Key, call: ApplyCall)
    requires Registry(s) && Workers(s) && Sane(s)
    ensures Workers(Next(s, WorkerDone(key, call)))
  {
    hide Next, EndsAs, Workers;
    if key in s.workers && s.workers[key].Writing? {
      var ending := DoneEnds(s, key, call);
      EndingWorkers(s, key, s.workers[key].batch, ending, Next(s, WorkerDone(key, call)));
    } else {
      DoneIgnored(s, key, call);
    }
  }

  // ---- Capabilities never come back ----

  /** Existing groups keep their submission; an inactive one stays inactive, and a pending one keeps its deadline. */
  ghost predicate GroupsAge(s: State, t: State) {
    && |s.groups| <= |t.groups|
    && forall g :: 0 <= g < |s.groups| ==>
         && t.groups[g].key == s.groups[g].key && t.groups[g].actions == s.groups[g].actions
         && t.groups[g].owner == s.groups[g].owner
         && (t.groups[g].active ==> s.groups[g].active)
         && (!s.groups[g].active ==> t.groups[g].indices == s.groups[g].indices)
         && (t.groups[g].pending ==> s.groups[g].pending && t.groups[g].deadline == s.groups[g].deadline)
  }

  lemma EndingGroups(s: State, key: Key, batch: seq<nat>, ending: Ending, t: State)
    requires StoreFits(s) && ValidNumbers(s, batch) && EndsAs(s, key, batch, ending, t)
    ensures GroupsAge(s, t) && |t.groups| == |s.groups|
  {
    hide Happened, OpsOf, WriteFailed, WriteReturned, GroupsAge;
    match ending {
      case Lost(blank) => FailedGroups(s, key, batch, blank);
      case Back(results, write) => ReturnedGroups(s, key, batch, results, write);
    }
  }

  lemma FailedGroups(s: State, key: Key, batch: seq<nat>, blank: bool)
    requires ValidNumbers(s, batch)
    ensures GroupsAge(s, WriteFailed(s, key, batch, blank)) && |WriteFailed(s, key, batch, blank).groups| == |s.groups|
  {
    hide FinishedBelow;
  }

  lemma CompletedGroups(s: State, key: Key, batch: seq<nat>, receipt: Option<UndoReceipt>)
    requires StoreFits(s) && (receipt.Some? ==> |receipt.value.steps| == |batch|)
    ensures GroupsAge(s, Completed(s, key, batch, receipt)) && |Completed(s, key, batch, receipt).groups| == |s.groups|
  {
    hide Lookup, IndexOf;
  }

  lemma ReturnedGroups(s: State, key: Key, batch: seq<nat>, results: seq<OpResult>, write: Option<Write>)
    requires StoreFits(s) && |results| == |batch|
    requires write.Some? ==> |write.value.receipt.steps| == |batch|
    ensures GroupsAge(s, WriteReturned(s, key, batch, results, write))
    ensures |WriteReturned(s, key, batch, results, write).groups| == |s.groups|
  {
    hide Completed, FinishedBelow, IndexOf;
    CompletedGroups(Finished(s, key, batch, results, write), key, batch, ReceiptOf(write));
  }

  lemma DropsAge(s: State, t: State)
    requires OnlyDrops(s, t)
    ensures GroupsAge(s, t)
  {
  }

  lemma SubmissionGroups(s: State, e: Event)
    requires Sane(s) && IsSubmission(e)
    ensures GroupsAge(s, Next(s, e))
  {
    hide Next;
    if Next(s, e) != s {
      SubmissionRegisters(s, e);
      hide DefersDeletes, Kept, Newest;
    }
  }

  lemma ResetGroups(s: State)
    ensures GroupsAge(s, WasReset(s))
  {
  }

  lemma NextGroupsAge(s: State, e: Event)
    requires Sane(s)
    ensures GroupsAge(s, Next(s, e))
  {
    hide Next, GroupsAge, EndsAs, OnlyDrops;
    if IsSubmission(e) {
      SubmissionGroups(s, e);
    } else if e.WorkerDone? {
      if e.key in s.workers && s.workers[e.key].Writing? {
        var ending := DoneEnds(s, e.key, e.call);
        EndingGroups(s, e.key, s.workers[e.key].batch, ending, Next(s, e));
      } else {
        DoneIgnored(s, e.key, e.call);
        SameGroupsAge(s);
      }
    } else if e.Reset? {
      ResetGroups(s);
      NextIsReset(s);
    } else {
      NextOnlyDrops(s, e);
      DropsAge(s, Next(s, e));
    }
  }

  lemma SameGroupsAge(s: State)
    ensures GroupsAge(s, s)
  {
  }

  // ---- Deferral ----

  /** Only a collected, due action starts applying, and the clock does not go back. */
  ghost predicate EntersDue(s: State, t: State) {
    && s.now <= t.now && |s.actions| <= |t.actions|
    && forall n :: 0 <= n < |s.actions| && t.actions[n].status.Applying? && !s.actions[n].status.Applying?
         ==> s.actions[n].readyAt <= s.now
  }

  lemma DeferralFollows(s: State, t: State)
    requires Deferral(s) && ActionSteps(s, t) && GroupsAge(s, t) && EntersDue(s, t)
    requires |t.actions| == |s.actions| && |t.groups| == |s.groups|
    ensures Deferral(t)
  {
    forall g: nat, n: nat | g < |t.groups| && t.groups[g].pending && n in t.groups[g].actions
      ensures DueAtDeadline(t, g, n)
    {
      assert n in s.groups[g].actions && s.groups[g].pending && DueAtDeadline(s, g, n);
    }
  }

  lemma NextSizes(s: State, e: Event)
    requires Sane(s) && !IsSubmission(e)
    ensures |Next(s, e).actions| == |s.actions| && |Next(s, e).groups| == |s.groups|
  {
    hide Next;
    NextSameShape(s, e);
  }

  lemma NextEntersDue(s: State, e: Event)
    requires Registry(s) && Workers(s) && Runs(s) && Sane(s) && !IsSubmission(e)
    ensures EntersDue(s, Next(s, e))
  {
    hide Next, EndsAs, Workers, SameWrites;
    if e.WorkerDone? {
      if e.key in s.workers && s.workers[e.key].Writing? {
        var ending := DoneEnds(s, e.key, e.call);
        EndingTouches(s, e.key, s.workers[e.key].batch, ending, Next(s, e));
      } else {
        DoneIgnored(s, e.key, e.call);
      }
    } else if e.WorkerCollect? {
      NextIsCollected(s, e.key);
      CollectedDue(s, e.key);
    } else {
      if e.UndoBegin? || e.UndoRecord? || e.UndoFinish? { UndoSameWrites(s, e); } else { OtherSameWrites(s, e); }
      NextClock(s, e);
      SameWritesEnterDue(s, Next(s, e));
    }
  }

  lemma SameWritesEnterDue(s: State, t: State)
    requires SameWrites(s, t) && s.now <= t.now
    ensures EntersDue(s, t)
  {
  }

  lemma CollectedDue(s: State, key: Key)
    ensures EntersDue(s, Collected(s, key))
  {
    var batch := ReadyBatch(s, key);
    forall n | n in batch ensures n < |s.actions| && s.actions[n].readyAt <= s.now {
      assert Batchable(s, key, n) && Pending(s, key, n);
    }
    hide BatchBelow;
  }

  lemma NextClock(s: State, e: Event)
    requires Sane(s) && !e.WorkerDone?
    ensures s.now <= Next(s, e).now && (!e.Tick? && !e.WorkerLook? ==> Next(s, e).now == s.now)
  {
    hide BatchBelow, DeadlineBelow, Lookup, ResetBelow;
  }

  /** What a submission appends: one group and its queued actions. */
  ghost predicate Appends(s: State, t: State, e: Event)
    requires IsSubmission(e)
  {
    && |t.actions| == |s.actions| + |Submission(e)| && |t.groups| == |s.groups| + 1
    && t.actions[..|s.actions|] == s.actions && t.now == s.now
    && var group := t.groups[|s.groups|];
       && group.actions == Numbers(|s.actions|, |Submission(e)|)
       && (group.pending ==> e.Submit? && group.deadline == s.now + DELETE_DELAY)
       && forall n :: |s.actions| <= n < |t.actions| ==>
            && t.actions[n].key == e.key && t.actions[n].group == |s.groups|
            && t.actions[n].status.Queued? && t.actions[n].IsUpload() == e.SubmitUpload?
            && t.actions[n].readyAt == if group.pending then group.deadline else 0.0
  }

  lemma SubmissionAppends(s: State, e: Event)
    requires Sane(s) && IsSubmission(e) && Next(s, e) != s
    ensures Appends(s, Next(s, e), e)
  {
    hide Next, Registered;
    SubmissionRegisters(s, e);
    RegisteredAppends(s, e);
  }

  lemma RegisteredAppends(s: State, e: Event)
    requires StoreFits(s) && IsSubmission(e)
    requires e.Submit? ==> forall op :: op in e.ops ==> IsEdit(op)
    ensures Appends(s, Registered(s, e.key, Submission(e), e.session), e)
  {
    hide Kept, Newest, InvalidateAll, EnsureWorker, ToSet, DefersDeletes;
    var ops := Submission(e);
    var t := Registered(s, e.key, ops, e.session);
    OnlyUploadsAttach(e);
    assert t.actions[..|s.actions|] == s.actions;
  }

  lemma OnlyUploadsAttach(e: Event)
    requires IsSubmission(e) && (e.Submit? ==> forall op :: op in e.ops ==> IsEdit(op))
    ensures DefersDeletes(Submission(e)) ==> e.Submit?
    ensures forall k :: 0 <= k < |Submission(e)| ==> Submission(e)[k].Attach? == e.SubmitUpload?
  {
    forall k | 0 <= k < |Submission(e)| ensures Submission(e)[k].Attach? == e.SubmitUpload? {
      assert e.Submit? ==> e.ops[k] in e.ops;
    }
  }

  lemma SubmissionDeferral(s: State, e: Event)
    requires Deferral(s) && Sane(s) && IsSubmission(e)
    ensures Deferral(Next(s, e))
  {
    hide Next, Appends, Deferral;
    if Next(s, e) != s {
      SubmissionAppends(s, e);
      SubmissionGroups(s, e);
      AppendDeferral(s, Next(s, e), e);
    }
  }

  lemma AppendDeferral(s: State, t: State, e: Event)
    requires IsSubmission(e) && Deferral(s) && Appends(s, t, e) && GroupsAge(s, t)
    ensures Deferral(t)
  {
    forall n | 0 <= n < |s.actions| ensures t.actions[n] == s.actions[n] {
      assert t.actions[..|s.actions|][n] == t.actions[n];
    }
    forall g: nat, n: nat | g < |t.groups| && t.groups[g].pending && n in t.groups[g].actions
      ensures DueAtDeadline(t, g, n)
    {
      if g < |s.groups| { assert n in s.groups[g].actions && s.groups[g].pending && DueAtDeadline(s, g, n); }
    }
  }

  lemma NextDeferral(s: State, e: Event)
    requires Registry(s) && Workers(s) && Runs(s) && Deferral(s) && Sane(s)
    ensures Deferral(Next(s, e))
  {
    hide Next, Deferral, GroupsAge, EntersDue, ActionSteps;
    if IsSubmission(e) {
      SubmissionDeferral(s, e);
    } else {
      NextSteps(s, e);
      NextGroupsAge(s, e);
      NextEntersDue(s, e);
      NextSizes(s, e);
      DeferralFollows(s, Next(s, e));
    }
  }

  // ---- Consumed capabilities ----

  ghost predicate KeepsDone(s: State, t: State) {
    |s.actions| <= |t.actions| && forall n :: 0 <= n < |s.actions| && s.actions[n].status.Done? ==>
      t.actions[n].status.Done?
  }

  lemma OtherKeepsDone(s: State, e: Event)
    requires Registry(s) && Sane(s) && !IsSubmission(e) && !e.WorkerDone? && !e.UndoRecord?
    ensures KeepsDone(s, Next(s, e))
  {
    hide Applied, Submitted, UploadSubmitted, BatchBelow, DeadlineBelow, Lookup, Sane;
    assert e.WorkerCollect? ==> forall n :: n in ReadyBatch(s, e.key) ==> Batchable(s, e.key, n);
  }

  /** Only a confirmed inverse turns a done action into an undone one. */
  lemma NextKeepsDone(s: State, e: Event)
    requires Registry(s) && Workers(s) && Sane(s) && !e.UndoRecord?
    ensures KeepsDone(s, Next(s, e))
  {
    hide Next, EndsAs, Registry;
    if IsSubmission(e) {
      if Next(s, e) != s {
        SubmissionAppends(s, e);
        assert forall n :: 0 <= n < |s.actions| ==> Next(s, e).actions[..|s.actions|][n] == Next(s, e).actions[n];
      }
    } else if e.WorkerDone? {
      if e.key in s.workers && s.workers[e.key].Writing? {
        assert WritesBatch(s, e.key, s.workers[e.key].batch);
        var ending := DoneEnds(s, e.key, e.call);
        EndingTouches(s, e.key, s.workers[e.key].batch, ending, Next(s, e));
      } else {
        DoneIgnored(s, e.key, e.call);
      }
    } else {
      OtherKeepsDone(s, e);
    }
  }

  lemma RunsFollow(s: State, t: State)
    requires Runs(s) && t.runs == s.runs && GroupsAge(s, t) && KeepsDone(s, t)
    ensures Runs(t)
  {
    forall i | 0 <= i < |t.runs| && t.runs[i].phase.Remote? ensures AllDone(t, t.groups[t.runs[i].group].actions) {
      assert AllDone(s, s.groups[s.runs[i].group].actions);
    }
  }

  /** What taking a capability changes. */
  lemma TookChanges(s: State, n: nat, session: Session) returns (g: nat)
    requires StoreFits(s) && CanTake(s, n, session)
    ensures g < |s.groups| && s.groups[g].active && (s.groups[g].receipt.None? ==> s.groups[g].pending)
    ensures s.groups[g].key == s.actions[n].key
    ensures var t := Took(s, n, session);
      && t.groups == InvalidateAll(s.groups, {g}) && KeepsDone(s, t) && t.undoing == s.undoing + {s.actions[n].key}
      && t.runs == s.runs + [UndoRun(s.actions[n].key, g, s.groups[g].receipt,
                                     if s.groups[g].receipt.Some? then Remote else Recorded)]
  {
    hide Lookup, InvalidateAll;
    g := Lookup(s.groups, s.latest, s.actions[n].key).value;
  }

  lemma TookRuns(s: State, n: nat, session: Session)
    requires Store(s) && Runs(s) && Quiet(s) && Sane(s) && CanTake(s, n, session)
    ensures Runs(Took(s, n, session))
  {
    hide Took, CanTake, Sane;
    SaneStore(s);
    var t := Took(s, n, session);
    var g := TookChanges(s, n, session);
    forall i | 0 <= i < |t.runs| && t.runs[i].phase.Remote? ensures AllDone(t, t.groups[t.runs[i].group].actions) {
      if i < |s.runs| {
        assert AllDone(s, s.groups[s.runs[i].group].actions);
      } else {
        assert AllDone(s, s.groups[g].actions);
      }
    }
  }

  lemma SubmissionsAreDisjoint(s: State, g: nat, h: nat)
    requires Shape(s) && g < |s.groups| && h < |s.groups| && g != h
    ensures forall n :: n in s.groups[g].actions ==> n !in s.groups[h].actions
  {
    forall n | n in s.groups[g].actions ensures n !in s.groups[h].actions {
      assert Owned(s, g, n);
      assert n in s.groups[h].actions ==> Owned(s, h, n);
    }
  }

  lemma RecordedRuns(s: State, run: nat, confirmed: bool)
    requires Shape(s) && Runs(s)
    ensures Runs(UndoRecorded(s, run, confirmed))
  {
    var t := UndoRecorded(s, run, confirmed);
    if t != s {
      var g := s.runs[run].group;
      forall i | 0 <= i < |t.runs| && t.runs[i].phase.Remote? ensures AllDone(t, t.groups[t.runs[i].group].actions) {
        assert i != run && s.runs[i].group != g;
        assert AllDone(s, s.groups[s.runs[i].group].actions);
        SubmissionsAreDisjoint(s, s.runs[i].group, g);
      }
    }
  }

  lemma FinishedRuns(s: State, run: nat)
    requires Runs(s)
    ensures Runs(UndoFinished(s, run))
  {
  }

  lemma NextRunsSame(s: State, e: Event)
    requires Sane(s) && !e.UndoBegin? && !e.UndoRecord? && !e.UndoFinish?
    ensures Next(s, e).runs == s.runs && Next(s, e).undoing == s.undoing
  {
    hide EndsAs, Applied, Registered;
    if e.WorkerDone? && e.key in s.workers && s.workers[e.key].Writing? {
      var ending := DoneEnds(s, e.key, e.call);
      EndingTouches(s, e.key, s.workers[e.key].batch, ending, Next(s, e));
    } else if IsSubmission(e) {
      SubmissionRunsSame(s, e);
    }
  }

  lemma SubmissionRunsSame(s: State, e: Event)
    requires Sane(s) && IsSubmission(e)
    ensures Next(s, e).runs == s.runs && Next(s, e).undoing == s.undoing
  {
    hide Next;
    if Next(s, e) != s { SubmissionRegisters(s, e); }
  }

  lemma NextUndoEvents(s: State, e: Event)
    requires Sane(s)
    ensures e.UndoBegin? && CanTake(s, e.action, e.session) ==> Next(s, e) == Took(s, e.action, e.session)
    ensures e.UndoBegin? && !CanTake(s, e.action, e.session) ==> Next(s, e) == AfterRefusal(s, e.action)
    ensures e.UndoRecord? ==> Next(s, e) == UndoRecorded(s, e.run, InverseDone(s, e.run, e.cloud))
    ensures e.UndoFinish? ==> Next(s, e) == UndoFinished(s, e.run)
  {
  }

  lemma RefusedRuns(s: State, n: nat)
    requires StoreFits(s)
    ensures AfterRefusal(s, n).runs == s.runs && AfterRefusal(s, n).undoing == s.undoing
  {
  }

  lemma NextRuns(s: State, e: Event)
    requires Inv(s) && Sane(s)
    ensures Runs(Next(s, e))
  {
    hide Next, Runs, GroupsAge, KeepsDone, CanTake, Took, AfterRefusal, UndoRecorded, UndoFinished;
    NextUndoEvents(s, e);
    if e.UndoRecord? {
      RecordedRuns(s, e.run, InverseDone(s, e.run, e.cloud));
    } else if e.UndoFinish? {
      FinishedRuns(s, e.run);
    } else if e.UndoBegin? && CanTake(s, e.action, e.session) {
      TookRuns(s, e.action, e.session);
    } else {
      if e.UndoBegin? { RefusedRuns(s, e.action); } else { NextRunsSame(s, e); }
      NextGroupsAge(s, e);
      NextKeepsDone(s, e);
      RunsFollow(s, Next(s, e));
    }
  }

  // ---- Quiet receipts ----

  /** A receipt in `t` was already there in `s`, on the same submission. */
  ghost predicate NoNewReceipts(s: State, t: State) {
    && |s.groups| <= |t.groups|
    && (forall g :: |s.groups| <= g < |t.groups| ==> t.groups[g].receipt.None?)
    && (forall g :: 0 <= g < |s.groups| && t.groups[g].receipt.Some? ==> t.groups[g] == s.groups[g])
  }

  lemma QuietFollows(s: State, t: State)
    requires Quiet(s) && NoNewReceipts(s, t) && KeepsDone(s, t) && ActionSteps(s, t) && |t.actions| == |s.actions|
    ensures Quiet(t)
  {
    forall g | 0 <= g < |t.groups| && t.groups[g].receipt.Some?
      ensures AllDone(t, t.groups[g].actions) && AtRest(t, t.groups[g].key)
    {
      assert AllDone(s, s.groups[g].actions) && AtRest(s, s.groups[g].key);
    }
  }

  lemma DropsAddNoReceipts(s: State, t: State)
    requires OnlyDrops(s, t)
    ensures NoNewReceipts(s, t)
  {
  }

  lemma NextNoNewReceipts(s: State, e: Event)
    requires Sane(s) && !e.WorkerDone? && !IsSubmission(e)
    ensures NoNewReceipts(s, Next(s, e))
  {
    hide Next, OnlyDrops, NoNewReceipts;
    if e.Reset? {
      NextIsReset(s);
      ResetAddsNoReceipts(s);
    } else {
      NextOnlyDrops(s, e);
      DropsAddNoReceipts(s, Next(s, e));
    }
  }

  lemma ResetAddsNoReceipts(s: State)
    ensures NoNewReceipts(s, WasReset(s))
  {
  }

  lemma RecordedQuiet(s: State, run: nat, confirmed: bool)
    requires Shape(s) && Store(s) && Runs(s) && Quiet(s)
    ensures Quiet(UndoRecorded(s, run, confirmed))
  {
    var t := UndoRecorded(s, run, confirmed);
    if t != s {
      var u := s.runs[run].group;
      forall g | 0 <= g < |t.groups| && t.groups[g].receipt.Some?
        ensures AllDone(t, t.groups[g].actions) && AtRest(t, t.groups[g].key)
      {
        assert AllDone(s, s.groups[g].actions) && AtRest(s, s.groups[g].key);
        SubmissionsAreDisjoint(s, g, u);
      }
    }
  }

  /** A submission ends every older capability of its Tonie, so the receipts that stay are of other Tonies. */
  lemma SubmissionReceipts(s: State, e: Event)
    requires Store(s) && Sane(s) && IsSubmission(e) && Next(s, e) != s
    ensures NoNewReceipts(s, Next(s, e))
    ensures forall g :: 0 <= g < |s.groups| && Next(s, e).groups[g].receipt.Some? ==> s.groups[g].key != e.key
  {
    hide Next, Registered, Sane;
    SaneStore(s);
    SubmissionRegisters(s, e);
    RegisteredReceipts(s, e.key, Submission(e), e.session);
  }

  lemma RegisteredReceipts(s: State, key: Key, ops: seq<Op>, session: Session)
    requires Store(s)
    ensures NoNewReceipts(s, Registered(s, key, ops, session))
    ensures forall g :: 0 <= g < |s.groups| && Registered(s, key, ops, session).groups[g].receipt.Some? ==>
      s.groups[g].key != key
  {
    hide DefersDeletes, NewActions, Numbers, EnsureWorker, Kept, Newest;
  }

  lemma SubmissionQuiet(s: State, e: Event)
    requires Store(s) && Quiet(s) && Sane(s) && IsSubmission(e)
    ensures Quiet(Next(s, e))
  {
    hide Next, Store;
    if Next(s, e) != s {
      var t := Next(s, e);
      SubmissionReceipts(s, e);
      SubmissionAppends(s, e);
      forall n | 0 <= n < |s.actions| ensures t.actions[n] == s.actions[n] {
        assert t.actions[..|s.actions|][n] == t.actions[n];
      }
      forall g | 0 <= g < |t.groups| && t.groups[g].receipt.Some?
        ensures AllDone(t, t.groups[g].actions) && AtRest(t, t.groups[g].key)
      {
        assert AllDone(s, s.groups[g].actions) && AtRest(s, s.groups[g].key);
      }
    }
  }

  /** `complete` grants a receipt only on a Tonie that has come to rest. */
  lemma EndingReceipts(s: State, key: Key, batch: seq<nat>, ending: Ending, t: State)
    requires StoreFits(s) && ValidNumbers(s, batch) && EndsAs(s, key, batch, ending, t)
    ensures |t.groups| == |s.groups|
    ensures forall g :: 0 <= g < |s.groups| && t.groups[g].receipt.Some? && t.groups[g] != s.groups[g] ==>
      && t.groups[g].key == key
      && AllDone(t, t.groups[g].actions)
      && (Registry(t) ==> AtRest(t, key))
  {
    hide Happened, OpsOf;
    if ending.Back? {
      var mid := Finished(s, key, batch, ending.results, ending.write);
      CompletedReceipts(mid, key, batch, ReceiptOf(ending.write));
      hide Finished, Completed, FinishedBelow;
      assert t == Pruned(Completed(mid, key, batch, ReceiptOf(ending.write)));
      FinishedKeepsGroups(s, key, batch, ending.results, ending.write);
      IdleAfterPrune(mid, Completed(mid, key, batch, ReceiptOf(ending.write)), key);
    } else {
      hide FinishedBelow;
    }
  }

  lemma FinishedKeepsGroups(s: State, key: Key, batch: seq<nat>, results: seq<OpResult>, write: Option<Write>)
    requires |results| == |batch|
    ensures Finished(s, key, batch, results, write).groups == s.groups
    ensures Finished(s, key, batch, results, write).latest == s.latest
  {
  }

  lemma CompletedReceipts(s: State, key: Key, batch: seq<nat>, receipt: Option<UndoReceipt>)
    requires StoreFits(s) && (receipt.Some? ==> |receipt.value.steps| == |batch|)
    ensures var t := Completed(s, key, batch, receipt);
      && t.actions == s.actions && t.listed == s.listed && |t.groups| == |s.groups|
      && forall g :: 0 <= g < |s.groups| && t.groups[g].receipt.Some? && t.groups[g] != s.groups[g] ==>
           && t.groups[g].key == key && AllDone(s, t.groups[g].actions) && !HasPending(s, key)
  {
  }

  lemma IdleAfterPrune(s: State, t: State, key: Key)
    requires t.actions == s.actions && t.listed == s.listed
    ensures Registry(Pruned(t)) && !HasPending(s, key) ==> AtRest(Pruned(t), key)
  {
    var u := Pruned(t);
    hide FinishedBelow;
    if Registry(u) && !HasPending(s, key) {
      forall n | 0 <= n < |u.actions| && u.actions[n].key == key ensures !u.actions[n].status.Waiting() {
        assert !Pending(s, key, n);
      }
    }
  }

  lemma EndingQuiet(s: State, key: Key, batch: seq<nat>, ending: Ending, t: State)
    requires Quiet(s) && Registry(t) && StoreFits(s) && ValidNumbers(s, batch) && EndsAs(s, key, batch, ending, t)
    requires ActionSteps(s, t) && KeepsDone(s, t) && GroupsAge(s, t)
    ensures Quiet(t)
  {
    EndingReceipts(s, key, batch, ending, t);
    EndingTouches(s, key, batch, ending, t);
    hide EndsAs, Registry;
    forall g | 0 <= g < |t.groups| && t.groups[g].receipt.Some?
      ensures AllDone(t, t.groups[g].actions) && AtRest(t, t.groups[g].key)
    {
      if t.groups[g] == s.groups[g] {
        assert AllDone(s, s.groups[g].actions) && AtRest(s, s.groups[g].key);
      }
    }
  }

  lemma NextQuiet(s: State, e: Event)
    requires Inv(s) && Sane(s)
    ensures Quiet(Next(s, e))
  {
    hide Next, Quiet, EndsAs, ActionSteps, KeepsDone, GroupsAge, NoNewReceipts, UndoRecorded;
    if IsSubmission(e) {
      SubmissionQuiet(s, e);
    } else if e.UndoRecord? {
      NextUndoEvents(s, e);
      RecordedQuiet(s, e.run, InverseDone(s, e.run, e.cloud));
    } else {
      NextSteps(s, e);
      NextKeepsDone(s, e);
      if e.WorkerDone? {
        if e.key in s.workers && s.workers[e.key].Writing? {
          NextGroupsAge(s, e);
          var ending := DoneEnds(s, e.key, e.call);
          EndingQuiet(s, e.key, s.workers[e.key].batch, ending, Next(s, e));
        } else {
          DoneIgnored(s, e.key, e.call);
        }
      } else {
        NextNoNewReceipts(s, e);
        NextSizes(s, e);
        QuietFollows(s, Next(s, e));
      }
    }
  }

  lemma NextShape(s: State, e: Event)
    requires Shape(s) && Sane(s)
    ensures Shape(Next(s, e))
  {
    hide Next, Shape, SameShape;
    if IsSubmission(e) {
      if Next(s, e) != s {
        SubmissionRegisters(s, e);
        RegisteredShape(s, e.key, Submission(e), e.session);
        hide Registered;
        NotifyShape(Registered(s, e.key, Submission(e), e.session), Next(s, e));
      }
    } else {
      NextSameShape(s, e);
      SameShapeKeeps(s, Next(s, e));
    }
  }

  lemma NotifyShape(s: State, t: State)
    requires Shape(s) && t.actions == s.actions && t.groups == s.groups
    ensures Shape(t)
  {
    SameShapeKeeps(s, t);
  }

  /** Every step keeps every invariant. */
  lemma NextInv(s: State, e: Event)
    requires Inv(s) && Sane(s)
    ensures Inv(Next(s, e))
  {
    hide Next, Shape, Store, Registry, Workers, Deferral, Runs, Quiet;
    NextShape(s, e);
    NextStore(s, e);
    NextSteps(s, e);
    NextWorkers(s, e);
    NextDeferral(s, e);
    NextRuns(s, e);
    NextQuiet(s, e);
  }
}
