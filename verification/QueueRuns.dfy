/** The promises of the queue, over every run: any interleaving of submissions, cancels, undos, transfers, worker
    steps, resets, clock ticks and cloud answers. */
module QueueRuns {
  import opened CloudWrite
  import opened CloudLaws
  import opened Queue
  import opened QueueInvariants
  import opened QueueSteps
  import opened QueueGrants
  import opened QueueWake
  import opened QueueOrder

  /** What holds in every state a run can reach. */
  ghost predicate Holds(s: State) {
    Inv(s) && Sane(s) && Grants(s) && Ordered(s)
  }

  lemma InitShape()
    ensures Shape(INIT) && Store(INIT) && Registry(INIT) && Sane(INIT)
  {
  }

  lemma InitRest()
    ensures Workers(INIT) && Deferral(INIT) && Runs(INIT) && Quiet(INIT) && Grants(INIT) && Ordered(INIT)
  {
  }

  lemma InitHolds()
    ensures Holds(INIT) && Wakeful(INIT)
  {
    hide Shape, Store, Registry, Sane, Workers, Deferral, Runs, Quiet, Grants, Ordered;
    InitShape();
    InitRest();
  }

  lemma NextHolds(s: State, e: Event)
    requires Holds(s)
    ensures Holds(Next(s, e))
  {
    hide Next, Inv, Grants, Ordered, Sane;
    NextInv(s, e);
    InvIsSane(Next(s, e));
    NextGrants(s, e);
    NextOrdered(s, e);
  }

  lemma HoldsParts(s: State)
    requires Holds(s)
    ensures Inv(s) && Sane(s) && Shape(s) && Store(s) && Registry(s) && Workers(s) && Deferral(s) && Runs(s) && Quiet(s)
    ensures Owners(s) && ReceiptsCarried(s) && Ordered(s) && EnteredAreActions(s)
  {
    hide Sane, Shape, Store, Registry, Workers, Deferral, Runs, Quiet, Owners, ReceiptsCarried, EnteredAreActions;
  }

  /** The state after a run. */
  ghost function Reached(events: seq<Event>): (s: State)
    ensures Holds(s)
  {
    if events == [] then InitHolds(); INIT
    else
      var last := |events| - 1;
      var s := Reached(events[..last]);
      NextHolds(s, events[last]);
      Next(s, events[last])
  }

  lemma ReachedNothing()
    ensures Reached([]) == INIT
  {
    hide Next, Holds;
  }

  lemma {:induction false} ReachedOneMore(events: seq<Event>, e: Event)
    ensures Reached(events + [e]) == Next(Reached(events), e)
  {
    hide Next, Holds;
    assert (events + [e])[..|events|] == events;
  }

  lemma {:induction false} ReachedLast(events: seq<Event>, more: seq<Event>)
    requires more != []
    ensures Reached(events + more) == Next(Reached(events + more[..|more| - 1]), more[|more| - 1])
  {
    hide Next, Reached, Holds;
    var head, last := events + more[..|more| - 1], more[|more| - 1];
    ReachedOneMore(head, last);
    assert head + [last] == events + more;
  }

  // ---- Receipts ----

  ghost predicate HasReceipt(s: State, g: nat) {
    g < |s.groups| && s.groups[g].receipt.Some?
  }

  /** The submission of a receipt is the newest of its Tonie and done; nothing of that Tonie waits, is being sent or is
      being written; and the submission is the tail of the Tonie's last successful write. */
  ghost predicate Quiescent(s: State, g: nat)
    requires g < |s.groups|
  {
    var group := s.groups[g];
    && g in s.latest && group.active && AllDone(s, group.actions) && AtRest(s, group.key)
    && (forall h :: g < h < |s.groups| ==> s.groups[h].key != group.key)
    && !(group.key in s.workers && s.workers[group.key].Writing?)
    && group.key in s.lastWrite && CarriedBy(s, s.lastWrite[group.key]) && GrantedBy(group, s.lastWrite[group.key])
  }

  lemma ReceiptIsQuiescent(s: State, g: nat)
    requires Store(s) && Quiet(s) && Workers(s) && ReceiptsCarried(s) && HasReceipt(s, g)
    ensures Quiescent(s, g)
  {
    WritingIsBusy(s, s.groups[g].key);
    hide Workers, CarriedBy, GrantedBy;
  }

  /** A receipt means quiescence, in every reachable state. */
  lemma {:induction false} ReceiptMeansQuiescence(events: seq<Event>, g: nat)
    requires HasReceipt(Reached(events), g)
    ensures Quiescent(Reached(events), g)
  {
    hide Holds, Reached, HasReceipt, Quiescent, Store, Quiet, Workers, ReceiptsCarried;
    HoldsParts(Reached(events));
    ReceiptIsQuiescent(Reached(events), g);
  }

  lemma WritingIsBusy(s: State, key: Key)
    requires Workers(s)
    ensures !(key in s.workers && s.workers[key].Writing? && AtRest(s, key))
  {
    if key in s.workers && s.workers[key].Writing? {
      var batch := s.workers[key].batch;
      assert WritesBatch(s, key, batch) && batch[0] in batch;
      assert s.actions[batch[0]].status.Waiting();
    }
  }

  lemma ReadyIsPending(s: State, key: Key) returns (n: nat)
    requires ReadyBatch(s, key) != []
    ensures Batchable(s, key, n) && Pending(s, key, n)
  {
    n := ReadyBatch(s, key)[0];
    assert n in ReadyBatch(s, key);
  }

  lemma RestIsIdle(s: State, key: Key)
    requires AtRest(s, key)
    ensures ReadyBatch(s, key) == []
  {
    if ReadyBatch(s, key) != [] {
      var n := ReadyIsPending(s, key);
    }
  }

  /** The submission whose capability `take` would hand over. */
  ghost function Offered(s: State, n: nat, session: Session): nat
    requires StoreFits(s) && CanTake(s, n, session)
  {
    Lookup(s.groups, s.latest, s.actions[n].key).value
  }

  lemma OfferedIsOwn(s: State, n: nat, session: Session)
    requires StoreFits(s) && CanTake(s, n, session)
    ensures n < |s.actions| && Offered(s, n, session) < |s.groups|
    ensures var group := s.groups[Offered(s, n, session)];
      group.key == s.actions[n].key && group.owner == session && n in group.actions && group.active
  {
  }

  /** `undo` was called with a capability that runs an inverse. */
  ghost predicate StartsInverse(s: State, n: nat, session: Session) {
    StoreFits(s) && CanTake(s, n, session) && HasReceipt(s, Offered(s, n, session))
  }

  /** An inverse never starts while a write of its Tonie is in flight, or while anything there still waits. */
  lemma {:induction false} InverseStartsAlone(events: seq<Event>, n: nat, session: Session)
    requires StartsInverse(Reached(events), n, session)
    ensures var s := Reached(events);
      && n < |s.actions|
      && var key := s.actions[n].key;
         AtRest(s, key) && !(key in s.workers && s.workers[key].Writing?) && ReadyBatch(s, key) == []
  {
    hide Reached, HasReceipt, CanTake, AtRest;
    var s := Reached(events);
    var g := Offered(s, n, session);
    OfferedIsOwn(s, n, session);
    ReceiptMeansQuiescence(events, g);
    RestIsIdle(s, s.groups[g].key);
  }

  /** The ops of a write that carried these actions as its tail. */
  ghost predicate TailOps(s: State, numbers: seq<nat>, last: LastWrite, first: nat) {
    && first + |numbers| == |last.batch| == |last.write.ops|
    && forall j :: 0 <= j < |numbers| ==>
      numbers[j] < |s.actions| && last.write.ops[first + j] == s.actions[numbers[j]].op
  }

  lemma TailCarries(s: State, group: Group, last: LastWrite)
    requires CarriedBy(s, last) && GrantedBy(group, last)
    ensures TailOps(s, group.actions, last, |last.batch| - |group.actions|)
  {
    hide Happened, IsTail, HasRecipes;
    var first := |last.batch| - |group.actions|;
    forall j | 0 <= j < |group.actions|
      ensures group.actions[j] < |s.actions| && last.write.ops[first + j] == s.actions[group.actions[j]].op
    {
      assert group.actions[j] == last.batch[first..][j] == last.batch[first + j];
      assert CarriedOp(s, last, first + j);
    }
  }

  // ---- Undo, end to end ----

  /** An upload is a submission of its own. */
  ghost predicate UploadsAlone(s: State) {
    forall n :: 0 <= n < |s.actions| && s.actions[n].IsUpload() ==>
      s.actions[n].group < |s.groups| && s.groups[s.actions[n].group].actions == [n]
  }

  lemma NextUploadsAlone(s: State, e: Event)
    requires Registry(s) && Workers(s) && Runs(s) && Sane(s) && UploadsAlone(s)
    ensures UploadsAlone(Next(s, e))
  {
    hide Next, Registry, Workers, Runs, Sane;
    var t := Next(s, e);
    if IsSubmission(e) {
      if t != s {
        SubmissionAppends(s, e);
        SubmissionGroups(s, e);
        assert forall n :: 0 <= n < |s.actions| ==> t.actions[..|s.actions|][n] == t.actions[n];
        if e.SubmitUpload? { OneUploadOnly(e, |s.actions|); }
      }
    } else {
      NextSteps(s, e);
      NextSameShape(s, e);
      assert forall n :: 0 <= n < |s.actions| ==> ActionStep(s.actions[n], t.actions[n]);
    }
  }

  lemma {:induction false} OneUploadOnly(e: Event, n: nat)
    requires IsSubmission(e) && e.SubmitUpload?
    ensures |Submission(e)| == 1 && Numbers(n, |Submission(e)|) == [n]
  {
    assert Numbers(n, 0) == [];
  }

  lemma {:induction false} RunsKeepUploadsAlone(events: seq<Event>)
    ensures UploadsAlone(Reached(events))
    decreases |events|
  {
    hide Next, Holds, UploadsAlone;
    if events == [] {
      NoUploads();
    } else {
      var head := events[..|events| - 1];
      RunsKeepUploadsAlone(head);
      HoldsParts(Reached(head));
      NextUploadsAlone(Reached(head), events[|events| - 1]);
    }
  }

  lemma NoUploads()
    ensures UploadsAlone(INIT)
  {
  }

  /** No action of the submission is an upload. */
  ghost predicate EditsOnly(s: State, group: Group) {
    forall n :: n in group.actions ==> n < |s.actions| && !s.actions[n].IsUpload()
  }

  lemma TailMember(s: State, group: Group, last: LastWrite, g: nat, k: nat)
    requires |group.actions| <= |last.batch| && TailOps(s, group.actions, last, |last.batch| - |group.actions|)
    requires Shape(s) && UploadsAlone(s) && g < |s.groups| && s.groups[g] == group
    requires |last.batch| - |group.actions| <= k < |last.write.ops|
    ensures last.write.ops[k].Attach? ==> |group.actions| == 1 && k + 1 == |last.write.ops|
    ensures EditsOnly(s, group) ==> !last.write.ops[k].Attach?
    ensures var n := group.actions[k - (|last.batch| - |group.actions|)];
      n < |s.actions| && last.write.ops[k].Attach? == s.actions[n].IsUpload()
  {
    var first := |last.batch| - |group.actions|;
    var n := group.actions[k - first];
    assert n in group.actions && Owned(s, g, n);
    assert last.write.ops[first + (k - first)] == s.actions[n].op;
  }

  lemma SubmissionsAreOneKind(s: State, group: Group, last: LastWrite, g: nat)
    requires |group.actions| <= |last.batch| && TailOps(s, group.actions, last, |last.batch| - |group.actions|)
    requires Shape(s) && UploadsAlone(s) && g < |s.groups| && s.groups[g] == group
    ensures OneKind(last.write, |last.batch| - |group.actions|)
    ensures EditsOnly(s, group) <==> OnlyEdits(last.write, |last.batch| - |group.actions|)
  {
    hide Shape, UploadsAlone;
    var first := |last.batch| - |group.actions|;
    assert first <= |last.write.ops|;
    forall k | first <= k < |last.write.ops|
      ensures last.write.ops[k].Attach? ==> |group.actions| == 1 && k + 1 == |last.write.ops|
      ensures EditsOnly(s, group) ==> !last.write.ops[k].Attach?
    {
      TailMember(s, group, last, g, k);
    }
  }

  /** What undoing the submission with this receipt comes to. On a list that still matches, undoing an upload leaves the
      plan of the same write without it if and only if its permanent id is not itself the staging id of an upload of the
      write; undoing edits leaves the plan without them if no successful upload of the write repeats an id of the list
      it meets. */
  ghost predicate Undoable(s: State, g: nat, session: Session, later: UndoCloud)
    requires HasReceipt(s, g)
  {
    var group := s.groups[g];
    && group.key in s.lastWrite
    && var write := s.lastWrite[group.key].write;
       var first := |s.lastWrite[group.key].batch| - |group.actions|;
       && Happened(write) && 0 <= first && TailOps(s, group.actions, s.lastWrite[group.key], first)
       && ExactUndo(s, group, write, first, session, later)
  }

  ghost predicate ExactUndo(s: State, group: Group, write: Write, first: nat, session: Session, later: UndoCloud)
    requires Happened(write) && first <= |write.ops| && group.receipt.Some?
  {
    && (forall i :: i in group.indices ==> i < |group.receipt.value.steps|)
    && var r := UndoResult(session, group.key, group.receipt.value, group.indices, later);
       && (!StillMatches(write, later.before) ==> r.UndoRefused?)
       && (StillMatches(write, later.before) && (EditsOnly(s, group) ==> Unrepeated(write)) ==>
            (UndoneAs(write, first, r, later.before) <==> NoCrossTalk(write, first)))
       && (EditsOnly(s, group) ==> NoCrossTalk(write, first))
  }

  lemma GrantIsUndoable(s: State, group: Group, last: LastWrite, later: UndoCloud)
    requires GrantedBy(group, last) && Happened(last.write) && group.actions != []
    requires OneKind(last.write, |last.batch| - |group.actions|)
    requires EditsOnly(s, group) <==> OnlyEdits(last.write, |last.batch| - |group.actions|)
    ensures ExactUndo(s, group, last.write, |last.batch| - |group.actions|, group.owner, later)
  {
    hide ApplyOutcome, UndoResult, NoCrossTalk, StillMatches, UndoneAs, OnlyEdits, EditsOnly, Unrepeated;
    WriteReports(last.write);
    UndoRestoresIff(last.write, group.indices, |last.batch| - |group.actions|, later);
  }

  lemma QuiescentIsUndoable(s: State, g: nat, session: Session, later: UndoCloud)
    requires HasReceipt(s, g) && Quiescent(s, g) && s.groups[g].actions != [] && s.groups[g].owner == session
    requires Shape(s) && UploadsAlone(s)
    ensures Undoable(s, g, session, later)
  {
    hide Happened, ExactUndo, TailOps, AllDone, AtRest, CarriedOp, OneKind, Shape, UploadsAlone, EditsOnly, OnlyEdits;
    var group := s.groups[g];
    var last := s.lastWrite[group.key];
    TailCarries(s, group, last);
    SubmissionsAreOneKind(s, group, last, g);
    TailFits(s, group, last);
    GrantIsUndoable(s, group, last, later);
  }

  lemma TailFits(s: State, group: Group, last: LastWrite)
    requires |group.actions| <= |last.batch| && TailOps(s, group.actions, last, |last.batch| - |group.actions|)
    ensures |last.batch| - |group.actions| <= |last.write.ops|
  {
  }

  /** End to end, in every reachable state and against any later cloud: undoing the submission that holds the receipt is
      refused when the list changed. Otherwise, for an upload, it leaves the plan without it exactly when its permanent
      id is not itself a staging id of the write; for edits, it does if no file id of the write repeats on the list. */
  lemma {:induction false} UndoRestoresSubmission(events: seq<Event>, n: nat, session: Session, later: UndoCloud)
    requires StartsInverse(Reached(events), n, session)
    ensures Undoable(Reached(events), Offered(Reached(events), n, session), session, later)
  {
    hide Reached, CanTake, Quiescent, Undoable, HasReceipt, Holds, Shape, UploadsAlone;
    var s := Reached(events);
    var g := Offered(s, n, session);
    OfferedIsOwn(s, n, session);
    ReceiptMeansQuiescence(events, g);
    RunsKeepUploadsAlone(events);
    HoldsParts(s);
    QuiescentIsUndoable(s, g, session, later);
  }

  lemma TailHasNoLoss(s: State, group: Group, last: LastWrite, n: nat)
    requires CarriedBy(s, last) && GrantedBy(group, last) && n in group.actions
    ensures n < |s.actions| && !s.actions[n].op.Delete? && !s.actions[n].op.Clear?
  {
    hide Happened, CarriedOp, IsTail;
    TailCarries(s, group, last);
    var j :| 0 <= j < |group.actions| && group.actions[j] == n;
    NoRecipeForLoss(last.write, |last.batch| - |group.actions| + j);
  }

  /** A submission with a delete or a clear never obtains a receipt. */
  lemma {:induction false} LossHasNoReceipt(events: seq<Event>, g: nat, n: nat)
    requires HasReceipt(Reached(events), g) && n in Reached(events).groups[g].actions
    ensures n < |Reached(events).actions|
    ensures !Reached(events).actions[n].op.Delete? && !Reached(events).actions[n].op.Clear?
  {
    hide Reached, CarriedBy, GrantedBy, AllDone, AtRest;
    ReceiptMeansQuiescence(events, g);
    var s := Reached(events);
    TailHasNoLoss(s, s.groups[g], s.lastWrite[s.groups[g].key], n);
  }

  // ---- Wake-ups ----

  /** Whoever has a batch ready has a worker that will see it: one that is not asleep, or whose timeout is due. */
  ghost predicate NoneLost(s: State) {
    forall key :: ReadyBatch(s, key) != [] ==> Attended(s, key)
  }

  ghost predicate Attended(s: State, key: Key) {
    key in s.workers && (s.workers[key].Asleep? ==> FiresBy(s.workers[key].until, s.now))
  }

  lemma WakefulLosesNone(s: State)
    requires Workers(s) && Wakeful(s)
    ensures NoneLost(s)
  {
    forall key | ReadyBatch(s, key) != [] ensures Attended(s, key) {
      var n := ReadyIsPending(s, key);
      assert s.actions[n].key in s.workers;
      if s.workers[key].Asleep? { assert Sound(s, key, s.workers[key].until); }
    }
  }

  lemma SlowLookLoses(s: State, key: Key, lag: real)
    requires !Prompt(s, WorkerLook(key, lag))
    ensures !NoneLost(Looked(s, key, lag))
  {
    var later := s.(now := s.now + lag);
    var t := Looked(s, key, lag);
    var n := ReadyIsPending(later, key);
    assert Batchable(t, key, n);
    assert n in ReadyBatch(t, key);
    assert !Attended(t, key);
  }

  ghost predicate AllPrompt(events: seq<Event>) {
    forall i :: 0 <= i < |events| ==> Prompt(Reached(events[..i]), events[i])
  }

  lemma {:induction false} PromptRunsAreWakeful(events: seq<Event>)
    requires AllPrompt(events)
    ensures Wakeful(Reached(events))
    decreases |events|
  {
    hide Next, Prompt, Wakeful, Holds;
    if events == [] {
      InitHolds();
    } else {
      var n := |events| - 1;
      forall i | 0 <= i < n ensures Prompt(Reached(events[..n][..i]), events[..n][i]) {
        assert events[..n][..i] == events[..i];
      }
      PromptRunsAreWakeful(events[..n]);
      HoldsParts(Reached(events[..n]));
      NextWakeful(Reached(events[..n]), events[n]);
    }
  }

  /** No wake-up is ever lost in a run exactly when no deadline passes between the two clock readings of a worker
      that finds nothing to do. */
  lemma NoLostWakeupIff(events: seq<Event>)
    ensures (forall i :: 0 <= i <= |events| ==> NoneLost(Reached(events[..i]))) <==> AllPrompt(events)
  {
    hide Reached, Next, NoneLost, Prompt, Holds;
    if AllPrompt(events) {
      forall i | 0 <= i <= |events| ensures NoneLost(Reached(events[..i])) {
        forall j | 0 <= j < i ensures Prompt(Reached(events[..i][..j]), events[..i][j]) {
          assert events[..i][..j] == events[..j];
        }
        PromptRunsAreWakeful(events[..i]);
        HoldsParts(Reached(events[..i]));
        WakefulLosesNone(Reached(events[..i]));
      }
    } else {
      var i :| 0 <= i < |events| && !Prompt(Reached(events[..i]), events[i]);
      ReachedOneMore(events[..i], events[i]);
      assert events[..i] + [events[i]] == events[..i + 1];
      HoldsParts(Reached(events[..i]));
      SlowLookIsLook(Reached(events[..i]), events[i]);
      assert !NoneLost(Reached(events[..i + 1]));
    }
  }

  lemma SlowLookIsLook(s: State, e: Event)
    requires Sane(s) && !Prompt(s, e)
    ensures !NoneLost(Next(s, e))
  {
    hide NoneLost, Next, Sane;
    NextIsLooked(s, e.key, e.lag);
    SlowLookLoses(s, e.key, e.lag);
  }

  // ---- Order ----

  /** Per Tonie, uploads enter writes in submission order, and so do edits; nothing enters ahead of an earlier action
      that is still deferred. */
  lemma {:induction false} WritesFollowSubmissionOrder(events: seq<Event>)
    ensures var s := Reached(events);
      && (forall e :: e in s.entered ==> e < |s.actions|)
      && (forall i, j :: 0 <= i < j < |s.entered| && SameLane(s, s.entered[i], s.entered[j]) ==>
        s.entered[i] < s.entered[j])
      && (forall e, n :: e in s.entered && 0 <= n < |s.actions| && Blocks(s, e, n) ==> e < n)
  {
    hide Reached, Holds, SameLane, Blocks;
    HoldsParts(Reached(events));
  }

  // ---- What a longer run cannot change ----

  ghost predicate Spent(s: State, g: nat) {
    g < |s.groups| && !s.groups[g].active
  }

  lemma StaysSpent(s: State, e: Event, g: nat)
    requires Sane(s) && Spent(s, g)
    ensures Spent(Next(s, e), g)
  {
    hide Next, Sane;
    NextGroupsAge(s, e);
  }

  /** Once a capability is gone it stays gone, whatever happens next. */
  lemma {:induction false} CapabilitiesNeverReturn(events: seq<Event>, more: seq<Event>, g: nat)
    requires Spent(Reached(events), g)
    ensures Spent(Reached(events + more), g)
    decreases |more|
  {
    hide Reached, Holds, Spent, Next;
    if more == [] {
      assert events + more == events;
    } else {
      var n := |more| - 1;
      CapabilitiesNeverReturn(events, more[..n], g);
      ReachedLast(events, more);
      HoldsParts(Reached(events + more[..n]));
      StaysSpent(Reached(events + more[..n]), more[n], g);
    }
  }

  /** Each submission is undone at most once: no two `undo` calls ever hold the same capability, and a held one is
      inactive for good, whether its inverse succeeds or not. */
  lemma {:induction false} OneUndoPerSubmission(events: seq<Event>, more: seq<Event>, i: nat, j: nat)
    requires i < j < |Reached(events).runs|
    ensures Reached(events).runs[i].group != Reached(events).runs[j].group
    ensures Spent(Reached(events + more), Reached(events).runs[i].group)
  {
    hide Reached, Holds;
    HoldsParts(Reached(events));
    CapabilitiesNeverReturn(events, more, Reached(events).runs[i].group);
  }

  ghost function Rank(s: Status): nat {
    match s
    case Queued => 0
    case Transferring => 1
    case Ready => 2
    case Applying => 3
    case Done => 4
    case _ => 5
  }

  /** The status moved down its ranked order, or stayed; and `finished` is set exactly outside the waiting ones. */
  ghost predicate Descended(s: State, t: State, n: nat) {
    && n < |s.actions| && n < |t.actions|
    && (t.actions[n].status == s.actions[n].status || Rank(s.actions[n].status) < Rank(t.actions[n].status))
    && (t.actions[n].finished <==> !t.actions[n].status.Waiting())
  }

  lemma StepDescends(s: State, e: Event, n: nat)
    requires Registry(s) && Workers(s) && Runs(s) && Sane(s) && n < |s.actions|
    ensures Descended(s, Next(s, e), n)
  {
    hide Next, Registry, Workers, Runs, Sane;
    NextSteps(s, e);
    assert ActionStep(s.actions[n], Next(s, e).actions[n]);
  }

  lemma RegistryDescends(s: State, n: nat)
    requires Registry(s) && n < |s.actions|
    ensures Descended(s, s, n)
  {
  }

  /** Statuses only descend over a run, terminal ones are final, and `finished` is set exactly when the status leaves
      the waiting ones. */
  lemma {:induction false} StatusesOnlyDescend(events: seq<Event>, more: seq<Event>, n: nat)
    requires n < |Reached(events).actions|
    ensures Descended(Reached(events), Reached(events + more), n)
    decreases |more|
  {
    hide Reached, Holds, Next, Registry, Workers, Runs, Sane;
    if more == [] {
      assert events + more == events;
      HoldsParts(Reached(events));
      RegistryDescends(Reached(events), n);
    } else {
      var k := |more| - 1;
      StatusesOnlyDescend(events, more[..k], n);
      ReachedLast(events, more);
      HoldsParts(Reached(events + more[..k]));
      StepDescends(Reached(events + more[..k]), more[k], n);
    }
  }

  lemma SaneParts(s: State)
    requires Sane(s)
    ensures StoreFits(s) && forall k :: k in s.workers && s.workers[k].Writing? ==> ValidNumbers(s, s.workers[k].batch)
  {
  }

  /** What was canceled, by an undo, a reset or a cancel, never reaches the cloud. */
  lemma {:induction false} CanceledNeverEnters(events: seq<Event>, more: seq<Event>, n: nat)
    requires n < |Reached(events).actions| && Reached(events).actions[n].status == Canceled
    ensures n !in Reached(events + more).entered
  {
    hide Reached, Holds;
    StatusesOnlyDescend(events, more, n);
    HoldsParts(Reached(events + more));
  }

  lemma DeferredIsNotDue(s: State, g: nat, m: nat)
    requires Shape(s) && Deferral(s) && g < |s.groups| && s.groups[g].pending && m in s.groups[g].actions
    requires s.now < s.groups[g].deadline
    ensures !Batchable(s, s.groups[g].key, m)
  {
    assert Owned(s, g, m) && DueAtDeadline(s, g, m);
    assert s.actions[m].key == s.groups[g].key;
  }

  lemma OfferedIsOpen(s: State, n: nat, session: Session)
    requires StoreFits(s) && CanTake(s, n, session)
    ensures Offered(s, n, session) < |s.groups| && s.now < s.groups[Offered(s, n, session)].deadline
  {
  }

  /** A deferred delete is never undoable and batchable at the same clock value. */
  lemma {:induction false} DeferredIsUndoableOrDue(events: seq<Event>, n: nat, session: Session)
    requires StoreFits(Reached(events)) && CanTake(Reached(events), n, session)
    requires Reached(events).groups[Offered(Reached(events), n, session)].pending
    ensures var s := Reached(events);
      forall m :: m in s.groups[Offered(s, n, session)].actions ==> !Batchable(s, s.actions[n].key, m)
  {
    hide Reached, Holds, Shape, Deferral, Batchable, CanTake;
    var s := Reached(events);
    HoldsParts(s);
    OfferedIsOwn(s, n, session);
    OfferedIsOpen(s, n, session);
    var g := Offered(s, n, session);
    forall m | m in s.groups[g].actions ensures !Batchable(s, s.actions[n].key, m) {
      DeferredIsNotDue(s, g, m);
    }
  }
}
