/** The life of an undo capability: over every run, what a submission starts, and exactly which event ends it, grants
    it a receipt or leaves it alone. */
module QueueCapabilities {
  import opened Lists
  import opened UndoSteps
  import opened CloudWrite
  import opened CloudLaws
  import opened Queue
  import opened QueueInvariants
  import opened QueueSteps
  import opened QueueRuns
  import opened QueueStatus
  import opened QueueTidy

  // ---- Submissions ----

  /** The queue takes the submission. */
  ghost predicate Accepts(s: State, e: Event) {
    && IsSubmission(e) && e.key != "" && e.session !in s.closed
    && (e.Submit? ==> e.ops != [] && forall k :: 0 <= k < |e.ops| ==> IsEdit(e.ops[k]))
  }

  /** A submission with a delete, and without a clear, is deferred. */
  ghost predicate Defers(e: Event)
    requires IsSubmission(e)
  {
    e.Submit? && (exists k :: 0 <= k < |e.ops| && e.ops[k].Delete?) && forall k :: 0 <= k < |e.ops| ==> !e.ops[k].Clear?
  }

  /** What an accepted submission adds: its actions, in order, and one capability, which runs for five seconds if the
      submission is deferred and for ten minutes otherwise. */
  ghost predicate Adds(s: State, t: State, e: Event)
    requires IsSubmission(e)
  {
    var ops, g := Submission(e), |s.groups|;
    && |t.actions| == |s.actions| + |ops| && |t.groups| == g + 1
    && (forall n :: 0 <= n < |s.actions| ==> t.actions[n] == s.actions[n])
    && (forall k :: 0 <= k < |ops| ==>
          t.actions[|s.actions| + k]
          == Action(e.key, ops[k], Queued, false, g, e.session, if Defers(e) then s.now + 5.0 else 0.0))
    && t.groups[g].key == e.key && t.groups[g].owner == e.session && t.groups[g].active
    && t.groups[g].receipt.None? && t.groups[g].indices == []
    && (t.groups[g].pending <==> Defers(e))
    && t.groups[g].deadline == s.now + (if Defers(e) then 5.0 else 600.0)
    && |t.groups[g].actions| == |ops|
    && (forall k :: 0 <= k < |ops| ==> t.groups[g].actions[k] == |s.actions| + k)
    && g in t.latest
  }

  lemma DefersIff(e: Event)
    requires IsSubmission(e)
    ensures DefersDeletes(Submission(e)) <==> Defers(e)
  {
  }

  lemma RegisteredAdds(s: State, e: Event)
    requires StoreFits(s) && IsSubmission(e)
    ensures Adds(s, Registered(s, e.key, Submission(e), e.session), e)
  {
    hide Kept, Newest, DefersDeletes, Defers, InvalidateAll, EnsureWorker, ToSet;
    DefersIff(e);
    var t := Registered(s, e.key, Submission(e), e.session);
    assert t.actions[..|s.actions|] == s.actions;
    assert forall n :: 0 <= n < |s.actions| ==> t.actions[..|s.actions|][n] == t.actions[n];
  }

  lemma AcceptsIff(s: State, e: Event)
    requires Sane(s) && StoreFits(s) && IsSubmission(e)
    ensures !Accepts(s, e) ==> Next(s, e) == s
    ensures Accepts(s, e) ==>
      var t := Registered(s, e.key, Submission(e), e.session);
      Next(s, e) == if e.Submit? then t.(workers := NotifyAll(t.workers)) else t.(unsent := s.unsent + {|s.actions|})
  {
    hide Registered, Sane;
  }

  lemma {:induction false} SubmissionAdds(events: seq<Event>, e: Event)
    requires IsSubmission(e)
    ensures if Accepts(Reached(events), e) then Adds(Reached(events), Reached(events + [e]), e)
            else Reached(events + [e]) == Reached(events)
  {
    hide Reached, Holds, Next, Registered, Sane, Accepts;
    var s := Reached(events);
    ReachedOneMore(events, e);
    HoldsParts(s);
    SaneParts(s);
    AcceptsIff(s, e);
    if Accepts(s, e) { RegisteredAdds(s, e); }
  }

  // ---- What ends a capability ----

  /** A stored submission that a new one for `key` leaves in the store, if there is room. */
  ghost predicate Stays(s: State, g: nat, key: Key) {
    g in s.latest && g < |s.groups| && s.groups[g].key != key && s.now < s.groups[g].deadline
  }

  /** The newer submissions that stay. */
  ghost function Newer(s: State, g: nat, key: Key): set<nat> {
    set h | h in s.latest && h > g && Stays(s, h, key)
  }

  /** A new submission ends the capability: it is for the same Tonie; or the capability expired; or 299 newer ones
      stay. */
  ghost predicate PushedOut(s: State, e: Event, g: nat)
    requires IsSubmission(e)
  {
    Accepts(s, e) && (!Stays(s, g, e.key) || |Newer(s, g, e.key)| >= 299)
  }

  /** A write of the Tonie ended as a whole, with an action of the submission in it. */
  ghost predicate LostInWrite(s: State, e: Event, g: nat)
    requires Sane(s)
  {
    && EndsWrite(s, e) && !Returns(s, e)
    && exists n :: n in s.workers[e.key].batch && s.actions[n].group == g
  }

  ghost predicate EndsWrite(s: State, e: Event) {
    e.WorkerDone? && e.key in s.workers && s.workers[e.key].Writing?
  }

  ghost predicate Returns(s: State, e: Event)
    requires Sane(s) && EndsWrite(s, e)
  {
    var outcome := OutcomeOf(s, e.key, s.workers[e.key].batch, e.call);
    outcome.Unchanged? || outcome.Written?
  }

  /** A write returned, and nothing of the Tonie waits any more: its newest submission is settled. */
  ghost predicate Settles(s: State, e: Event, g: nat)
    requires Sane(s) && g < |s.groups|
  {
    && EndsWrite(s, e) && Returns(s, e) && s.groups[g].key == e.key
    && forall m :: 0 <= m < |s.actions| && s.actions[m].key == e.key && s.actions[m].status.Waiting() ==>
         m in s.workers[e.key].batch
  }

  /** And it was wholly in that write, without an error, and each of its actions has a recipe. */
  ghost predicate Grants(s: State, e: Event, g: nat)
    requires Sane(s) && g < |s.groups|
  {
    && Settles(s, e, g)
    && var batch := s.workers[e.key].batch;
       var outcome := OutcomeOf(s, e.key, batch, e.call);
       && outcome.Written? && |outcome.results| == |batch| == |outcome.receipt.steps|
       && forall n :: n in s.groups[g].actions ==>
            && n in batch && outcome.results[IndexOf(batch, n)].error.None?
            && outcome.receipt.steps[IndexOf(batch, n)].Some?
  }

  /** Any other event that ends the capability: its action is canceled; someone tries to undo it while it is available
      or has expired; a reset; a look at it after it expired. */
  ghost predicate CutShort(s: State, e: Event, g: nat)
    requires Sane(s) && g < |s.groups|
  {
    match e
    case Cancel(n) => n < |s.actions| && s.actions[n].status == Queued && s.actions[n].group == g
    case UndoBegin(n, _) =>
      && n in s.listed && n in s.groups[g].actions
      && (s.groups[g].Expired(s.now, s.closed) || s.groups[g].Available(s.now, s.closed))
    case Reset => true
    case Probe(n) => n < |s.actions| && s.actions[n].group == g && s.groups[g].Expired(s.now, s.closed)
    case Submit(_, _, _) => PushedOut(s, e, g)
    case SubmitUpload(_, _, _, _) => PushedOut(s, e, g)
    case WorkerDone(_, _) => LostInWrite(s, e, g)
    case _ => false
  }

  /** The receipt of the write that just returned. */
  ghost function WrittenReceipt(s: State, e: Event): Option<UndoReceipt>
    requires Sane(s) && EndsWrite(s, e)
  {
    var outcome := OutcomeOf(s, e.key, s.workers[e.key].batch, e.call);
    if outcome.Written? then Some(outcome.receipt) else None
  }

  /** What becomes of a submission's capability. One that is gone stays as it is. */
  ghost predicate LivesOn(s: State, t: State, e: Event, g: nat)
    requires Sane(s) && g < |s.groups|
  {
    && g < |t.groups|
    && var was, now := s.groups[g], t.groups[g];
       if !was.active then now == was
       else if Grants(s, e, g) then
         && now == was.(pending := false, receipt := WrittenReceipt(s, e), indices := now.indices,
                        deadline := s.now + 600.0)
         && |now.indices| == |was.actions|
         && (forall j :: 0 <= j < |was.actions| ==>
               now.indices[j] < |s.workers[e.key].batch| && s.workers[e.key].batch[now.indices[j]] == was.actions[j])
       else if Settles(s, e, g) then now == was.(pending := false, active := false, receipt := None)
       else now == if CutShort(s, e, g) then was.(active := false, receipt := None) else was
  }

  // ---- Event by event ----

  /** A live capability is the one the store finds for its Tonie. */
  lemma LookupIs(s: State, g: nat)
    requires Store(s) && g < |s.groups| && s.groups[g].active
    ensures Lookup(s.groups, s.latest, s.groups[g].key) == Some(g)
  {
    assert g in s.latest;
  }

  lemma TailOfKept(kept: seq<nat>, i: nat)
    requires Ascends(kept) && i < |kept|
    ensures |set h | h in kept && h > kept[i]| == |kept| - 1 - i
    ensures kept[i] in Newest(kept) <==> |kept| - 1 - i < 299
  {
    var tail := kept[i + 1..];
    assert Ascends(tail);
    AscendingCount(tail);
    forall h ensures h in tail <==> h in kept && h > kept[i] { InTail(kept, i, h); }
    assert (set h | h in kept && h > kept[i]) == ToSet(tail);
    NewestIsTail(kept, i);
  }

  lemma InTail(kept: seq<nat>, i: nat, h: nat)
    requires Ascends(kept) && i < |kept|
    ensures h in kept[i + 1..] <==> h in kept && h > kept[i]
  {
    if h in kept {
      var k :| 0 <= k < |kept| && kept[k] == h;
      if k > i { assert kept[i + 1..][k - i - 1] == h; }
    }
  }

  lemma NewestIsTail(kept: seq<nat>, i: nat)
    requires Ascends(kept) && i < |kept|
    ensures kept[i] in Newest(kept) <==> |kept| - 1 - i < 299
  {
    if |kept| >= MAX_UNDO_TARGETS {
      var k := |kept| - (MAX_UNDO_TARGETS - 1);
      if i >= k { assert kept[k..][i - k] == kept[i]; }
    }
  }

  lemma {:induction false} StaysIff(s: State, g: nat, key: Key)
    requires Store(s) && g < |s.groups| && g in s.latest
    ensures g in Newest(Kept(s.groups, s.latest, key, s.now)) <==> Stays(s, g, key) && |Newer(s, g, key)| < 299
  {
    var kept := Kept(s.groups, s.latest, key, s.now);
    if Stays(s, g, key) {
      KeptAscends(s.groups, s.latest, key, s.now);
      var i :| 0 <= i < |kept| && kept[i] == g;
      TailOfKept(kept, i);
      assert Newer(s, g, key) == set h | h in kept && h > kept[i];
    }
  }

  lemma SubmissionLives(s: State, e: Event, g: nat)
    requires Store(s) && Sane(s) && IsSubmission(e) && g < |s.groups|
    ensures LivesOn(s, Next(s, e), e, g)
  {
    hide Next, Registered, Newer, Stays, Newest, Kept;
    SaneParts(s);
    AcceptsIff(s, e);
    if Accepts(s, e) {
      RegisteredLives(s, e, g);
    }
  }

  lemma RegisteredLives(s: State, e: Event, g: nat)
    requires Store(s) && IsSubmission(e) && g < |s.groups|
    ensures var t := Registered(s, e.key, Submission(e), e.session);
      g < |t.groups| && t.groups[g]
        == if s.groups[g].active && (!Stays(s, g, e.key) || |Newer(s, g, e.key)| >= 299)
           then s.groups[g].(active := false, receipt := None) else s.groups[g]
  {
    hide Newer, Stays, Newest, Kept, Numbers, NewActions, EnsureWorker, DefersDeletes;
    if g in s.latest { StaysIff(s, g, e.key); }
  }

  lemma TookLives(s: State, e: Event, g: nat)
    requires Shape(s) && Store(s) && StoreFits(s) && e.UndoBegin? && CanTake(s, e.action, e.session) && g < |s.groups|
    requires Sane(s)
    ensures LivesOn(s, Took(s, e.action, e.session), e, g)
  {
    hide Lookup, Sane, Shape, Store;
    if s.groups[g].active { LookupIs(s, g); }
    OfferedIsOwn(s, e.action, e.session);
    InactiveHasNoReceipt(s, g);
    if e.action in s.groups[g].actions { MemberKey(s, g, e.action); }
  }

  lemma InactiveHasNoReceipt(s: State, g: nat)
    requires Store(s) && g < |s.groups|
    ensures !s.groups[g].active ==> s.groups[g].receipt.None? && s.groups[g].Invalidated() == s.groups[g]
  {
  }

  lemma MemberKey(s: State, g: nat, n: nat)
    requires Shape(s) && g < |s.groups| && n in s.groups[g].actions
    ensures n < |s.actions| && s.actions[n].key == s.groups[g].key && s.actions[n].group == g
  {
    assert Owned(s, g, n);
  }

  lemma RefusedLives(s: State, e: Event, g: nat)
    requires Shape(s) && Store(s) && StoreFits(s) && e.UndoBegin? && !CanTake(s, e.action, e.session) && g < |s.groups|
    requires Sane(s) && forall n :: n in s.listed ==> n < |s.actions|
    ensures LivesOn(s, AfterRefusal(s, e.action), e, g)
  {
    hide Lookup, Sane, Shape, Store, CanTake;
    if s.groups[g].active { LookupIs(s, g); }
    InactiveHasNoReceipt(s, g);
    if e.action in s.groups[g].actions { MemberKey(s, g, e.action); }
  }

  lemma UndoLives(s: State, e: Event, g: nat)
    requires Shape(s) && Store(s) && Registry(s) && Sane(s) && e.UndoBegin? && g < |s.groups|
    ensures LivesOn(s, Next(s, e), e, g)
  {
    hide Next, Registry, Sane, Shape, Store, LivesOn, CanTake, Took, AfterRefusal;
    SaneParts(s);
    ListedAreNumbers(s);
    NextUndoEvents(s, e);
    if CanTake(s, e.action, e.session) { TookLives(s, e, g); } else { RefusedLives(s, e, g); }
  }

  lemma CancelLives(s: State, e: Event, g: nat)
    requires Store(s) && Registry(s) && Sane(s) && e.Cancel? && g < |s.groups|
    ensures LivesOn(s, Next(s, e), e, g)
  {
    hide NotifyAll, SettleAll, Next, Sane;
    NextIs(s, e);
    InactiveHasNoReceipt(s, g);
    WaitingIsListed(s);
  }

  lemma ProbeLives(s: State, e: Event, g: nat)
    requires Store(s) && Sane(s) && e.Probe? && g < |s.groups|
    ensures LivesOn(s, Next(s, e), e, g)
  {
    hide Store;
    InactiveHasNoReceipt(s, g);
  }

  lemma ResetLives(s: State, e: Event, g: nat)
    requires Store(s) && Sane(s) && e.Reset? && g < |s.groups|
    ensures LivesOn(s, Next(s, e), e, g)
  {
    hide Sane, Next, ResetBelow, NotifyAll, SettleAll;
    NextIs(s, e);
  }

  lemma FailedGroupIs(s: State, key: Key, batch: seq<nat>, blank: bool, g: nat)
    requires ValidNumbers(s, batch) && g < |s.groups|
    ensures var t := WriteFailed(s, key, batch, blank);
      g < |t.groups| && t.groups[g]
        == if exists n :: n in batch && s.actions[n].group == g then s.groups[g].Invalidated() else s.groups[g]
  {
    hide FinishedBelow, SettleAll, Surplus;
    var which := set n | n in batch :: s.actions[n].group;
    assert g in which <==> exists n :: n in batch && s.actions[n].group == g;
  }

  lemma LostLives(s: State, e: Event, g: nat, blank: bool)
    requires Store(s) && Sane(s) && EndsWrite(s, e) && g < |s.groups| && !Returns(s, e)
    requires ValidNumbers(s, s.workers[e.key].batch)
    requires Next(s, e) == WriteFailed(s, e.key, s.workers[e.key].batch, blank)
    ensures LivesOn(s, Next(s, e), e, g)
  {
    hide Next, WriteFailed, OutcomeOf, Store, Sane, Returns;
    FailedGroupIs(s, e.key, s.workers[e.key].batch, blank, g);
    InactiveHasNoReceipt(s, g);
  }

  lemma PendingAfter(s: State, key: Key, batch: seq<nat>, results: seq<OpResult>, write: Option<Write>)
    requires Registry(s) && |results| == |batch|
    ensures HasPending(Finished(s, key, batch, results, write), key)
            <==> exists m ::
              0 <= m < |s.actions| && s.actions[m].key == key && s.actions[m].status.Waiting() && m !in batch
  {
    hide IndexOf, Registry;
    var u := Finished(s, key, batch, results, write);
    WaitingIsListed(s);
    forall m | 0 <= m < |s.actions|
      ensures Pending(u, key, m) <==> s.actions[m].key == key && s.actions[m].status.Waiting() && m !in batch
    {
    }
  }

  lemma WaitingIsListed(s: State)
    requires Registry(s)
    ensures forall m :: 0 <= m < |s.actions| && s.actions[m].status.Waiting() ==> m in s.listed
  {
  }

  /** Every action of the submission was in the write, without an error, and has a recipe. */
  ghost predicate WhollyIn(numbers: seq<nat>, batch: seq<nat>, results: seq<OpResult>, steps: seq<Option<Step>>)
    requires |batch| == |results| == |steps|
  {
    forall n :: n in numbers ==>
      n in batch && results[IndexOf(batch, n)].error.None? && steps[IndexOf(batch, n)].Some?
  }

  lemma {:induction false} GrantedIff(u: State, group: Group, batch: seq<nat>, results: seq<OpResult>,
                                      receipt: Option<UndoReceipt>)
    requires |results| == |batch| && (receipt.Some? ==> |receipt.value.steps| == |batch|)
    requires forall n :: n in batch ==>
      n < |u.actions| && u.actions[n].status == Outcome(results[IndexOf(batch, n)].error.Some?)
    ensures var r := Granted(u, group, batch, receipt);
      if receipt.Some? && WhollyIn(group.actions, batch, results, receipt.value.steps) then
        && r == group.(receipt := receipt, indices := r.indices, deadline := u.now + UNDO_TTL)
        && |r.indices| == |group.actions|
        && forall j :: 0 <= j < |group.actions| ==>
             r.indices[j] < |batch| && batch[r.indices[j]] == group.actions[j]
      else r == group.Invalidated()
  {
    hide IndexOf;
    if receipt.Some? && forall n :: n in group.actions ==> n in batch && u.actions[n].status == Done {
      var indices := seq(|group.actions|, i requires 0 <= i < |group.actions| =>
        assert group.actions[i] in group.actions; IndexOf(batch, group.actions[i]));
      assert forall i :: 0 <= i < |indices| ==> group.actions[i] in group.actions;
      if n :| n in group.actions && receipt.value.steps[IndexOf(batch, n)].None? {
        var i :| 0 <= i < |group.actions| && group.actions[i] == n;
        assert indices[i] == IndexOf(batch, n);
      }
    }
  }

  lemma CompletedGroupIs(u: State, key: Key, batch: seq<nat>, receipt: Option<UndoReceipt>, g: nat)
    requires Store(u) && StoreFits(u) && g < |u.groups| && (receipt.Some? ==> |receipt.value.steps| == |batch|)
    ensures var t := Completed(u, key, batch, receipt);
      g < |t.groups| && t.groups[g]
        == if u.groups[g].active && u.groups[g].key == key && !HasPending(u, key)
           then Granted(u, u.groups[g].(pending := false), batch, receipt) else u.groups[g]
  {
    hide Granted, Lookup, HasPending, Store;
    if u.groups[g].active { LookupIs(u, g); }
  }

  lemma ReturnedGroupIs(s: State, key: Key, batch: seq<nat>, results: seq<OpResult>, write: Option<Write>, g: nat)
    requires Store(s) && StoreFits(s) && g < |s.groups| && |results| == |batch|
    requires write.Some? ==> |write.value.receipt.steps| == |batch|
    ensures var t, u := WriteReturned(s, key, batch, results, write), Finished(s, key, batch, results, write);
      g < |t.groups| && t.groups[g]
        == if s.groups[g].active && s.groups[g].key == key && !HasPending(u, key)
           then Granted(u, s.groups[g].(pending := false), batch, ReceiptOf(write)) else s.groups[g]
  {
    hide Granted, HasPending, Completed, FinishedBelow, Surplus, FinishAll;
    CompletedGroupIs(Finished(s, key, batch, results, write), key, batch, ReceiptOf(write), g);
  }

  lemma {:induction false} FinishedOutcome(s: State, key: Key, batch: seq<nat>, results: seq<OpResult>,
                                           write: Option<Write>)
    requires |results| == |batch| && ValidNumbers(s, batch)
    ensures var u := Finished(s, key, batch, results, write);
      forall n :: n in batch ==>
        n < |u.actions| && u.actions[n].status == Outcome(results[IndexOf(batch, n)].error.Some?)
  {
    hide IndexOf;
  }

  lemma BackLives(s: State, e: Event, g: nat, results: seq<OpResult>, write: Option<Write>)
    requires Store(s) && Registry(s) && Sane(s) && EndsWrite(s, e) && g < |s.groups| && Returns(s, e)
    requires ValidNumbers(s, s.workers[e.key].batch) && StoreFits(s)
    requires |results| == |s.workers[e.key].batch|
    requires write.Some? ==> |write.value.receipt.steps| == |s.workers[e.key].batch|
    requires results == OutcomeOf(s, e.key, s.workers[e.key].batch, e.call).results
    requires ReceiptOf(write) == WrittenReceipt(s, e)
    requires Next(s, e) == WriteReturned(s, e.key, s.workers[e.key].batch, results, write)
    ensures LivesOn(s, Next(s, e), e, g)
  {
    hide Next, OutcomeOf, IndexOf, Sane, Store, Registry, HasPending, Finished, WriteReturned, Granted;
    var batch := s.workers[e.key].batch;
    var u := Finished(s, e.key, batch, results, write);
    ReturnedGroupIs(s, e.key, batch, results, write, g);
    PendingAfter(s, e.key, batch, results, write);
    FinishedOutcome(s, e.key, batch, results, write);
    FinishedClock(s, e.key, batch, results, write);
    GrantedIff(u, s.groups[g].(pending := false), batch, results, ReceiptOf(write));
  }

  lemma FinishedClock(s: State, key: Key, batch: seq<nat>, results: seq<OpResult>, write: Option<Write>)
    requires |results| == |batch|
    ensures Finished(s, key, batch, results, write).now == s.now
  {
  }

  lemma WriteLives(s: State, e: Event, g: nat)
    requires Store(s) && Registry(s) && Workers(s) && Sane(s) && e.WorkerDone? && g < |s.groups|
    ensures LivesOn(s, Next(s, e), e, g)
  {
    hide Next, Store, Registry, Workers, Sane, OutcomeOf, WriteFailed, WriteReturned, Happened, OpsOf;
    SaneParts(s);
    if EndsWrite(s, e) {
      var ending := DoneEnds(s, e.key, e.call);
      match ending {
        case Lost(blank) => LostLives(s, e, g, blank);
        case Back(results, write) => BackLives(s, e, g, results, write);
      }
    } else {
      DoneIgnored(s, e.key, e.call);
    }
  }

  /** The events that touch no capability. */
  ghost predicate LeavesGroups(e: Event) {
    e.Tick? || e.UndoRecord? || e.UndoFinish? || e.TransferBegin? || e.TransferEnd? || e.Wake? || e.WorkerLook?
    || e.WorkerCollect? || e.Close?
  }

  lemma OthersLive(s: State, e: Event, g: nat)
    requires Sane(s) && LeavesGroups(e) && g < |s.groups|
    ensures LivesOn(s, Next(s, e), e, g)
  {
    hide ReadyBatch, DeadlineBelow, NotifyAll, SetAll, SettleAll, Sane, InverseDone, OutcomeOf, CanTake, Took,
         AfterRefusal, Submitted, UploadSubmitted, Applied, Accepts, PushedOut, Cancelled, WasReset, Probed;
  }

  lemma StepLives(s: State, e: Event, g: nat)
    requires Shape(s) && Store(s) && Registry(s) && Workers(s) && Sane(s) && g < |s.groups|
    ensures LivesOn(s, Next(s, e), e, g)
  {
    hide Next, Shape, Store, Registry, Workers, Sane, LivesOn;
    match e {
      case Submit(_, _, _) => SubmissionLives(s, e, g);
      case SubmitUpload(_, _, _, _) => SubmissionLives(s, e, g);
      case UndoBegin(_, _) => UndoLives(s, e, g);
      case Cancel(_) => CancelLives(s, e, g);
      case Probe(_) => ProbeLives(s, e, g);
      case Reset => ResetLives(s, e, g);
      case WorkerDone(_, _) => WriteLives(s, e, g);
      case _ => OthersLive(s, e, g);
    }
  }

  /** Over every run, each capability lives on, ends, or obtains the receipt of its write, for exactly these reasons. */
  lemma {:induction false} CapabilityLives(events: seq<Event>, e: Event, g: nat)
    requires g < |Reached(events).groups|
    ensures Sane(Reached(events)) && LivesOn(Reached(events), Reached(events + [e]), e, g)
  {
    hide Reached, Holds, Next, LivesOn, Shape, Store, Registry, Workers, Sane;
    ReachedOneMore(events, e);
    HoldsParts(Reached(events));
    StepLives(Reached(events), e, g);
  }
}
