/** Where a receipt comes from: a confirmed write whose last ops are exactly the undoable submission. */
module QueueGrants {
  import opened Lists
  import opened Planner
  import opened UndoSteps
  import opened CloudWrite
  import opened CloudLaws
  import opened Queue
  import opened QueueInvariants
  import opened QueueSteps

  /** The ops a write carried were those of its actions, which have finished since. */
  ghost predicate CarriedBy(s: State, last: LastWrite) {
    && Happened(last.write) && |last.write.ops| == |last.batch| == |last.write.receipt.steps|
    && forall i :: 0 <= i < |last.batch| ==> CarriedOp(s, last, i)
  }

  ghost predicate CarriedOp(s: State, last: LastWrite, i: nat)
    requires i < |last.batch| == |last.write.ops|
  {
    && last.batch[i] < |s.actions|
    && s.actions[last.batch[i]].op == last.write.ops[i]
    && s.actions[last.batch[i]].status in {Done, Failed, Undone}
  }

  /** A receipt is that of the last write of its Tonie; its indices are the tail of that write, hold recipes, and
      are the actions of the submission. */
  ghost predicate GrantedBy(group: Group, last: LastWrite) {
    && group.receipt == Some(last.write.receipt)
    && last.write.target == group.key && last.write.session == group.owner
    && |group.actions| <= |last.batch| == |last.write.receipt.steps|
    && var first := |last.batch| - |group.actions|;
       && last.batch[first..] == group.actions
       && IsTail(group.indices, first, |last.batch|)
       && HasRecipes(last.write.receipt.steps, first)
  }

  /** Every action was submitted by the session that owns its submission. */
  ghost predicate Owners(s: State) {
    forall n :: 0 <= n < |s.actions| ==>
      s.actions[n].group < |s.groups| && s.actions[n].session == s.groups[s.actions[n].group].owner
  }

  ghost predicate ReceiptsCarried(s: State) {
    forall g :: 0 <= g < |s.groups| && s.groups[g].receipt.Some? ==>
      && s.groups[g].key in s.lastWrite
      && CarriedBy(s, s.lastWrite[s.groups[g].key]) && GrantedBy(s.groups[g], s.lastWrite[s.groups[g].key])
  }

  ghost predicate Grants(s: State) {
    Owners(s) && ReceiptsCarried(s)
  }

  // ---- The tail of an ascending batch ----

  lemma {:induction false} IndexIs(batch: seq<nat>, p: nat)
    requires Ascends(batch) && p < |batch|
    ensures batch[p] in batch && IndexOf(batch, batch[p]) == p
  {
    var q := IndexOf(batch, batch[p]);
    assert q <= p;
  }

  /** Consecutive numbers of an ascending batch are neighbours in it. */
  lemma Neighbours(batch: seq<nat>, p: nat, q: nat)
    requires Ascends(batch) && p < |batch| && q < |batch| && batch[q] == batch[p] + 1
    ensures q == p + 1
  {
    assert q > p;
    assert p + 1 < |batch| ==> batch[p + 1] > batch[p];
  }

  lemma {:induction false} RunInBatch(batch: seq<nat>, run: seq<nat>, j: nat)
    requires Ascends(batch) && Run(run) && j < |run|
    requires forall n :: n in run ==> n in batch
    ensures run[0] in run && IndexOf(batch, run[0]) + j < |batch| && batch[IndexOf(batch, run[0]) + j] == run[j]
  {
    assert run[0] in run;
    if j > 0 {
      RunInBatch(batch, run, j - 1);
      assert run[j] in run && run[j] == run[j - 1] + 1;
      Neighbours(batch, IndexOf(batch, run[0]) + j - 1, IndexOf(batch, run[j]));
    }
  }

  lemma {:induction false} RunIsLast(batch: seq<nat>, run: seq<nat>)
    requires Ascends(batch) && Run(run)
    requires forall n :: n in run ==> n in batch
    requires forall n :: n in batch && n >= run[0] ==> n in run
    ensures run[0] in run && IndexOf(batch, run[0]) + |run| == |batch|
  {
    hide IndexOf;
    var k := |run|;
    RunInBatch(batch, run, k - 1);
    var p, last := IndexOf(batch, run[0]) + k - 1, |batch| - 1;
    assert batch[last] in batch && batch[p] <= batch[last];
    var i :| 0 <= i < k && run[i] == batch[last];
  }

  /** Actions in a write that are at least as new as a submission it holds whole are that submission. */
  lemma {:induction false} RunIsTail(batch: seq<nat>, run: seq<nat>, j: nat)
    requires Ascends(batch) && Run(run) && j < |run|
    requires forall n :: n in run ==> n in batch
    requires forall n :: n in batch && n >= run[0] ==> n in run
    ensures |run| <= |batch| && batch[|batch| - |run| + j] == run[j]
    ensures run[j] in batch && IndexOf(batch, run[j]) == |batch| - |run| + j
  {
    hide IndexOf, Run, Ascends;
    RunIsLast(batch, run);
    RunInBatch(batch, run, j);
    IndexIs(batch, |batch| - |run| + j);
  }

  // ---- Granting ----

  /** A group that `complete` granted had every action done in the batch, at slots that hold recipes. */
  lemma {:induction false} GrantedFacts(s: State, key: Key, batch: seq<nat>, receipt: Option<UndoReceipt>, g: nat)
    requires StoreFits(s) && (receipt.Some? ==> |receipt.value.steps| == |batch|)
    requires g < |s.groups| && s.groups[g].receipt.None?
    requires Completed(s, key, batch, receipt).groups[g].receipt.Some?
    ensures var t := Completed(s, key, batch, receipt).groups[g];
      && g in s.latest && s.groups[g].key == key
      && t.receipt == receipt && t.key == key && t.actions == s.groups[g].actions && t.owner == s.groups[g].owner
      && |t.indices| == |t.actions|
      && forall j :: 0 <= j < |t.actions| ==>
           && t.actions[j] in batch && t.indices[j] == IndexOf(batch, t.actions[j])
           && receipt.value.steps[t.indices[j]].Some?
  {
    var t := Completed(s, key, batch, receipt).groups[g];
    forall j | 0 <= j < |t.actions| ensures t.actions[j] in batch {
      assert t.actions[j] in t.actions;
    }
  }

  /** The newest actions of a Tonie are its latest submission's. */
  lemma NewestAreLatest(s: State, key: Key, batch: seq<nat>, g: nat)
    requires Shape(s) && Store(s) && g in s.latest && s.groups[g].key == key
    requires forall n :: n in batch ==> n < |s.actions| && s.actions[n].key == key
    ensures forall n :: n in batch && n >= s.groups[g].actions[0] ==> n in s.groups[g].actions
  {
    var a := s.groups[g].actions[0];
    assert a in s.groups[g].actions && Owned(s, g, a);
    forall n | n in batch && n >= a ensures n in s.groups[g].actions {
      assert s.actions[a].group <= s.actions[n].group;
    }
  }

  lemma GrantIsTail(s: State, key: Key, batch: seq<nat>, receipt: UndoReceipt, g: nat)
    requires Shape(s) && Store(s) && |receipt.steps| == |batch| && Ascends(batch)
    requires forall n :: n in batch ==> n < |s.actions| && s.actions[n].key == key
    requires g < |s.groups| && s.groups[g].receipt.None?
    requires Completed(s, key, batch, Some(receipt)).groups[g].receipt.Some?
    ensures var t := Completed(s, key, batch, Some(receipt)).groups[g];
      t.key == key && t.owner == s.groups[g].owner && TailGrant(t, batch, receipt)
  {
    GrantedFacts(s, key, batch, Some(receipt), g);
    var t := Completed(s, key, batch, Some(receipt)).groups[g];
    hide Completed;
    NewestAreLatest(s, key, batch, g);
    assert Run(t.actions);
    hide Shape, Store;
    SlotsAreTail(t, batch, receipt);
  }

  ghost predicate TailGrant(t: Group, batch: seq<nat>, receipt: UndoReceipt)
    requires |receipt.steps| == |batch|
  {
    && t.receipt == Some(receipt) && |t.actions| <= |batch|
    && batch[|batch| - |t.actions|..] == t.actions
    && IsTail(t.indices, |batch| - |t.actions|, |batch|)
    && HasRecipes(receipt.steps, |batch| - |t.actions|)
  }

  /** Each action of the submission, and its slot, by position. */
  ghost predicate AtTail(t: Group, batch: seq<nat>, receipt: UndoReceipt, first: nat) {
    && first + |t.actions| == |batch| == |receipt.steps| && |t.indices| == |t.actions|
    && (forall j :: 0 <= j < |t.actions| ==> t.actions[j] == batch[first + j])
    && (forall j :: 0 <= j < |t.actions| ==> t.indices[j] == first + j)
    && (forall j :: 0 <= j < |t.actions| ==> receipt.steps[t.indices[j]].Some?)
  }

  lemma AtTailIsGrant(t: Group, batch: seq<nat>, receipt: UndoReceipt, first: nat)
    requires AtTail(t, batch, receipt, first) && t.receipt == Some(receipt)
    ensures TailGrant(t, batch, receipt)
  {
    assert first == |batch| - |t.actions|;
    assert batch[first..] == t.actions;
    forall k | first <= k < |batch| ensures receipt.steps[k].Some? {
      assert t.indices[k - first] == k;
    }
  }

  lemma {:induction false} SlotsAreTail(t: Group, batch: seq<nat>, receipt: UndoReceipt)
    requires |receipt.steps| == |batch| && Ascends(batch) && Run(t.actions) && t.receipt == Some(receipt)
    requires forall n :: n in batch && n >= t.actions[0] ==> n in t.actions
    requires |t.indices| == |t.actions|
    requires forall j :: 0 <= j < |t.actions| ==>
      && t.actions[j] in batch && t.indices[j] == IndexOf(batch, t.actions[j]) && receipt.steps[t.indices[j]].Some?
    ensures TailGrant(t, batch, receipt)
  {
    hide Run, Ascends, IndexOf, TailGrant;
    assert t.actions != [] by { RunIsSome(t.actions); }
    assert forall n :: n in t.actions ==> n in batch;
    RunIsTail(batch, t.actions, 0);
    var first := |batch| - |t.actions|;
    forall j | 0 <= j < |t.actions|
      ensures t.actions[j] == batch[first + j] && t.indices[j] == first + j && receipt.steps[t.indices[j]].Some?
    {
      RunIsTail(batch, t.actions, j);
    }
    AtTailIsGrant(t, batch, receipt, first);
  }

  lemma RunIsSome(run: seq<nat>)
    requires Run(run)
    ensures run != []
  {
  }

  // ---- Every step keeps it ----

  lemma CarriedFollows(s: State, t: State, last: LastWrite)
    requires CarriedBy(s, last) && ActionSteps(s, t)
    ensures CarriedBy(t, last)
  {
    forall i | 0 <= i < |last.batch| ensures CarriedOp(t, last, i) {
      assert CarriedOp(s, last, i);
    }
  }

  lemma OwnersFollow(s: State, t: State)
    requires Owners(s) && ActionSteps(s, t) && GroupsAge(s, t) && |t.actions| == |s.actions|
    ensures Owners(t)
  {
  }

  lemma SubmissionOwners(s: State, e: Event)
    requires Owners(s) && Sane(s) && IsSubmission(e)
    ensures Owners(Next(s, e))
  {
    hide Next, Registered, Sane, Owners;
    if Next(s, e) != s {
      SaneStore(s);
      SubmissionRegisters(s, e);
      RegisteredOwners(s, e.key, Submission(e), e.session);
      OwnersOfSame(Registered(s, e.key, Submission(e), e.session), Next(s, e));
    }
  }

  lemma RegisteredOwners(s: State, key: Key, ops: seq<Op>, session: Session)
    requires Owners(s) && StoreFits(s)
    ensures Owners(Registered(s, key, ops, session))
  {
    hide DefersDeletes, Kept, Newest, ToSet, EnsureWorker, Numbers;
  }

  lemma OwnersOfSame(s: State, t: State)
    requires Owners(s) && t.actions == s.actions && t.groups == s.groups
    ensures Owners(t)
  {
  }

  lemma NextOwners(s: State, e: Event)
    requires Inv(s) && Sane(s) && Owners(s)
    ensures Owners(Next(s, e))
  {
    hide Next, ActionSteps, GroupsAge, Owners;
    if IsSubmission(e) {
      SubmissionOwners(s, e);
    } else {
      NextSteps(s, e);
      NextGroupsAge(s, e);
      NextSizes(s, e);
      OwnersFollow(s, Next(s, e));
    }
  }

  lemma NextLastWrite(s: State, e: Event)
    requires Sane(s) && !e.WorkerDone?
    ensures Next(s, e).lastWrite == s.lastWrite
  {
    hide Next, Sane;
    if !IsSubmission(e) {
      OtherLastWrite(s, e);
    } else if Next(s, e) != s {
      SubmissionLastWrite(s, e);
    }
  }

  lemma OtherLastWrite(s: State, e: Event)
    requires Sane(s) && !e.WorkerDone? && !IsSubmission(e)
    ensures Next(s, e).lastWrite == s.lastWrite
  {
    hide Submitted, UploadSubmitted, Applied, ReadyBatch, DeadlineBelow, ResetBelow, CanTake, Lookup, SetAll,
         SettleAll, InvalidateAll, NotifyAll, Sane;
  }

  lemma SubmissionLastWrite(s: State, e: Event)
    requires Sane(s) && IsSubmission(e) && Next(s, e) != s
    ensures Next(s, e).lastWrite == s.lastWrite
  {
    hide Next;
    SubmissionRegisters(s, e);
  }

  lemma ReceiptsFollow(s: State, t: State)
    requires ReceiptsCarried(s) && ActionSteps(s, t) && NoNewReceipts(s, t) && t.lastWrite == s.lastWrite
    ensures ReceiptsCarried(t)
  {
    forall g | 0 <= g < |t.groups| && t.groups[g].receipt.Some?
      ensures t.groups[g].key in t.lastWrite
      ensures CarriedBy(t, t.lastWrite[t.groups[g].key]) && GrantedBy(t.groups[g], t.lastWrite[t.groups[g].key])
    {
      CarriedFollows(s, t, s.lastWrite[s.groups[g].key]);
    }
  }

  /** While a write of a Tonie is in flight, the Tonie holds no receipt. */
  lemma NoReceiptInFlight(s: State, key: Key, g: nat)
    requires Inv(s) && key in s.workers && s.workers[key].Writing? && g < |s.groups| && s.groups[g].key == key
    ensures s.groups[g].receipt.None?
  {
    var batch := s.workers[key].batch;
    assert WritesBatch(s, key, batch) && batch[0] in batch;
    assert s.groups[g].receipt.Some? ==> AtRest(s, key);
  }

  lemma FinishedCarries(s: State, t: State, key: Key, batch: seq<nat>, results: seq<OpResult>, write: Write)
    requires StoreFits(s) && ValidNumbers(s, batch) && EndsAs(s, key, batch, Back(results, Some(write)), t)
    requires WritesBatch(s, key, batch) && ActionSteps(s, t)
    ensures t.lastWrite == s.lastWrite[key := LastWrite(batch, write)] && CarriedBy(t, LastWrite(batch, write))
  {
    EndingTouches(s, key, batch, Back(results, Some(write)), t);
    LastWriteAfter(s, t, key, batch, results, write);
    WriteReports(write);
    hide ApplyOutcome, WriteReturned;
    var last := LastWrite(batch, write);
    forall i | 0 <= i < |batch| ensures CarriedOp(t, last, i) {
      assert batch[i] in batch;
    }
  }

  lemma LastWriteAfter(s: State, t: State, key: Key, batch: seq<nat>, results: seq<OpResult>, write: Write)
    requires StoreFits(s) && ValidNumbers(s, batch) && EndsAs(s, key, batch, Back(results, Some(write)), t)
    ensures t.lastWrite == s.lastWrite[key := LastWrite(batch, write)]
  {
    hide Happened, OpsOf;
  }

  lemma NoWriteNoGrant(s: State, t: State, key: Key, batch: seq<nat>, ending: Ending)
    requires StoreFits(s) && ValidNumbers(s, batch) && EndsAs(s, key, batch, ending, t)
    requires ending.Lost? || ending.write.None?
    ensures t.lastWrite == s.lastWrite && NoNewReceipts(s, t)
  {
    hide Happened, OpsOf;
  }

  lemma EndIsCompleted(s: State, t: State, key: Key, batch: seq<nat>, results: seq<OpResult>, write: Write)
    requires StoreFits(s) && ValidNumbers(s, batch) && EndsAs(s, key, batch, Back(results, Some(write)), t)
    ensures |results| == |batch| == |write.receipt.steps| && StoreFits(Finished(s, key, batch, results, Some(write)))
    ensures t.groups == Completed(Finished(s, key, batch, results, Some(write)), key, batch, Some(write.receipt)).groups
  {
    hide Happened, OpsOf, FinishedBelow, Completed;
  }

  lemma FinishedShape(s: State, key: Key, batch: seq<nat>, results: seq<OpResult>, write: Write)
    requires Shape(s) && Store(s) && |results| == |batch| && WritesBatch(s, key, batch)
    ensures var mid := Finished(s, key, batch, results, Some(write));
      && Shape(mid) && Store(mid) && mid.groups == s.groups && |mid.actions| == |s.actions|
      && forall n :: n in batch ==> n < |mid.actions| && mid.actions[n].key == key
  {
    hide Shape, Store, IndexOf;
    MidShape(s, Finished(s, key, batch, results, Some(write)));
  }

  /** A receipt that a returned write brings is that write's, for the submission at its tail. */
  lemma WriteGrants(s: State, t: State, key: Key, batch: seq<nat>, results: seq<OpResult>, write: Write, g: nat)
    requires Shape(s) && Store(s) && Owners(s) && ValidNumbers(s, batch)
    requires EndsAs(s, key, batch, Back(results, Some(write)), t) && WritesBatch(s, key, batch)
    requires g < |s.groups| == |t.groups| && s.groups[g].receipt.None? && t.groups[g].receipt.Some?
    ensures t.groups[g].key == key && GrantedBy(t.groups[g], LastWrite(batch, write))
  {
    var mid := Finished(s, key, batch, results, Some(write));
    EndIsCompleted(s, t, key, batch, results, write);
    WriteSessions(s, key, batch, results, write, t);
    hide EndsAs;
    FinishedShape(s, key, batch, results, write);
    hide Shape, Store, Completed, Finished, Owners;
    GrantIsTail(mid, key, batch, write.receipt, g);
    CompletedKeepsActions(mid, key, batch, write.receipt, g);
    OwnerOfBatch(s, batch, write, g, t.groups[g]);
  }

  lemma WriteSessions(s: State, key: Key, batch: seq<nat>, results: seq<OpResult>, write: Write, t: State)
    requires StoreFits(s) && ValidNumbers(s, batch) && EndsAs(s, key, batch, Back(results, Some(write)), t)
    ensures write.target == key && forall n :: n in batch ==> n < |s.actions| && s.actions[n].session == write.session
  {
    hide Happened, OpsOf, WriteReturned;
  }

  lemma CompletedKeepsActions(s: State, key: Key, batch: seq<nat>, receipt: UndoReceipt, g: nat)
    requires StoreFits(s) && |receipt.steps| == |batch| && g < |s.groups|
    ensures Completed(s, key, batch, Some(receipt)).groups[g].actions == s.groups[g].actions
    ensures Completed(s, key, batch, Some(receipt)).groups[g].owner == s.groups[g].owner
  {
  }

  lemma MidShape(s: State, mid: State)
    requires Shape(s) && Store(s) && mid.groups == s.groups && mid.latest == s.latest && |mid.actions| == |s.actions|
    requires forall n :: 0 <= n < |s.actions| ==>
      mid.actions[n].key == s.actions[n].key && mid.actions[n].group == s.actions[n].group
    ensures Shape(mid) && Store(mid)
  {
    SameShapeKeeps(s, mid);
    DropsKeepStore(s, mid);
  }

  /** The owner of an undoable submission is the session that wrote it. */
  lemma OwnerOfBatch(s: State, batch: seq<nat>, write: Write, g: nat, group: Group)
    requires Shape(s) && Owners(s) && g < |s.groups|
    requires group.actions == s.groups[g].actions && group.owner == s.groups[g].owner
    requires |group.actions| <= |batch| && batch[|batch| - |group.actions|..] == group.actions
    requires forall n :: n in batch ==> n < |s.actions| && s.actions[n].session == write.session
    ensures group.owner == write.session
  {
    var n := group.actions[0];
    assert Owned(s, g, n) && batch[|batch| - |group.actions|] == n && n in batch;
  }

  lemma InvParts(s: State)
    requires Inv(s)
    ensures Shape(s) && Registry(s) && Workers(s) && Runs(s) && Store(s)
  {
  }

  lemma WritingBatch(s: State, key: Key)
    requires Workers(s) && key in s.workers && s.workers[key].Writing?
    ensures WritesBatch(s, key, s.workers[key].batch)
  {
  }

  lemma StoreFitsOf(s: State)
    requires Store(s)
    ensures StoreFits(s)
  {
  }

  lemma EndingReceiptsCarried(s: State, t: State, key: Key, ending: Ending)
    requires Inv(s) && Grants(s) && key in s.workers && s.workers[key].Writing?
    requires ValidNumbers(s, s.workers[key].batch) && EndsAs(s, key, s.workers[key].batch, ending, t)
    requires ActionSteps(s, t) && GroupsAge(s, t) && |t.groups| == |s.groups|
    ensures ReceiptsCarried(t)
  {
    hide EndsAs, ActionSteps, GroupsAge, CarriedBy, GrantedBy, WritesBatch, Inv, Shape, Store, Owners, Workers,
         ValidNumbers, NoNewReceipts;
    InvParts(s);
    StoreFitsOf(s);
    var batch := s.workers[key].batch;
    WritingBatch(s, key);
    if ending.Lost? || ending.write.None? {
      NoWriteNoGrant(s, t, key, batch, ending);
      ReceiptsFollow(s, t);
    } else {
      var write := ending.write.value;
      FinishedCarries(s, t, key, batch, ending.results, write);
      OldReceipts(s, t, key, batch, ending);
      forall g | 0 <= g < |t.groups| && t.groups[g].receipt.Some?
        ensures t.groups[g].key in t.lastWrite
        ensures CarriedBy(t, t.lastWrite[t.groups[g].key]) && GrantedBy(t.groups[g], t.lastWrite[t.groups[g].key])
      {
        if s.groups[g].key == key {
          NoReceiptInFlight(s, key, g);
          WriteGrants(s, t, key, batch, ending.results, write, g);
        } else {
          CarriedFollows(s, t, s.lastWrite[s.groups[g].key]);
        }
      }
    }
  }

  /** The end of a write leaves the receipts of other Tonies alone. */
  lemma OldReceipts(s: State, t: State, key: Key, batch: seq<nat>, ending: Ending)
    requires StoreFits(s) && ValidNumbers(s, batch) && EndsAs(s, key, batch, ending, t)
    ensures |t.groups| == |s.groups|
    ensures forall g :: 0 <= g < |s.groups| && t.groups[g].receipt.Some? && s.groups[g].key != key ==>
      t.groups[g] == s.groups[g]
  {
    hide Happened, OpsOf, FinishedBelow;
  }

  lemma NextReceiptsCarried(s: State, e: Event)
    requires Inv(s) && Sane(s) && Grants(s)
    ensures ReceiptsCarried(Next(s, e))
  {
    hide Next, EndsAs, ActionSteps, GroupsAge, NoNewReceipts, ReceiptsCarried, Inv;
    InvParts(s);
    NextSteps(s, e);
    if e.WorkerDone? {
      if e.key in s.workers && s.workers[e.key].Writing? {
        NextGroupsAge(s, e);
        NextSizes(s, e);
        var ending := DoneEnds(s, e.key, e.call);
        EndingReceiptsCarried(s, Next(s, e), e.key, ending);
      } else {
        DoneIgnored(s, e.key, e.call);
      }
    } else {
      NextLastWrite(s, e);
      if IsSubmission(e) {
        if Next(s, e) != s { SubmissionReceipts(s, e); ReceiptsFollow(s, Next(s, e)); }
      } else {
        NextNoNewReceipts(s, e);
        ReceiptsFollow(s, Next(s, e));
      }
    }
  }

  lemma NextGrants(s: State, e: Event)
    requires Inv(s) && Sane(s) && Grants(s)
    ensures Grants(Next(s, e))
  {
    hide Next, Inv, Owners, ReceiptsCarried;
    NextOwners(s, e);
    NextReceiptsCarried(s, e);
  }
}
