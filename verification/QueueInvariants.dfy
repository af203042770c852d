/** What every step of the queue keeps: shape of submissions, the undo store, the registry of actions, the
    workers and the deferral clock. */
module QueueInvariants {
  import opened Lists
  import opened Planner
  import opened UndoSteps
  import opened CloudWrite
  import opened CloudLaws
  import opened Queue

  // ---- The invariants ----

  /** Submissions are consecutive runs of action numbers, in the order of their groups. */
  ghost predicate Shape(s: State) {
    && (forall n :: 0 <= n < |s.actions| ==>
         && s.actions[n].group < |s.groups|
         && n in s.groups[s.actions[n].group].actions
         && s.groups[s.actions[n].group].key == s.actions[n].key)
    && (forall m, n :: 0 <= m < n < |s.actions| ==> s.actions[m].group <= s.actions[n].group)
    && (forall g :: 0 <= g < |s.groups| ==> Run(s.groups[g].actions))
    && (forall g: nat, n: nat :: g < |s.groups| && n in s.groups[g].actions ==> Owned(s, g, n))
  }

  ghost predicate Owned(s: State, g: nat, n: nat) {
    n < |s.actions| && s.actions[n].group == g
  }

  ghost predicate Run(numbers: seq<nat>) {
    numbers != [] && forall i :: 0 <= i < |numbers| ==> numbers[i] == numbers[0] + i
  }

  /** The store keeps, per Tonie, only the newest submission; a live capability is always in it. */
  ghost predicate Store(s: State) {
    && StoreFits(s) && |s.latest| <= MAX_UNDO_TARGETS
    && Ascends(s.latest)
    && (forall g :: 0 <= g < |s.groups| && s.groups[g].active ==> g in s.latest)
    && (forall g :: 0 <= g < |s.groups| && s.groups[g].receipt.Some? ==> s.groups[g].active && !s.groups[g].pending)
    && (forall g, h :: g in s.latest && g < h < |s.groups| ==> s.groups[h].key != s.groups[g].key)
  }

  /** Waiting actions are listed, exactly the others are finished, and only uploads are transferred. */
  ghost predicate Registry(s: State) {
    && (forall n :: n in s.listed ==> n < |s.actions|)
    && (forall n :: 0 <= n < |s.actions| && s.actions[n].status.Waiting() ==> n in s.listed)
    && (forall n :: 0 <= n < |s.actions| ==> (s.actions[n].finished <==> !s.actions[n].status.Waiting()))
    && (forall n :: 0 <= n < |s.actions| && (s.actions[n].status.Transferring? || s.actions[n].status.Ready?)
          ==> s.actions[n].IsUpload())
    && (forall n :: n in s.transit ==>
          n < |s.actions| && s.actions[n].IsUpload() && s.actions[n].status in {Transferring, Canceled})
    && (forall n :: n in s.unsent ==> n < |s.actions| && s.actions[n].IsUpload())
  }

  /** Exactly the actions of a write in flight are applying, and every Tonie with work has its one worker. */
  ghost predicate Workers(s: State) {
    && (forall k :: k in s.workers && s.workers[k].Writing? ==> WritesBatch(s, k, s.workers[k].batch))
    && (forall n :: 0 <= n < |s.actions| && s.actions[n].status.Waiting() ==> s.actions[n].key in s.workers)
    && (forall n :: 0 <= n < |s.actions| && s.actions[n].status.Applying? ==> InFlight(s, n))
  }

  ghost predicate WritesBatch(s: State, key: Key, batch: seq<nat>) {
    && batch != []
    && Ascends(batch)
    && (forall n :: n in batch ==> n < |s.actions| && s.actions[n].key == key && s.actions[n].status.Applying?)
  }

  ghost predicate InFlight(s: State, n: nat)
    requires n < |s.actions|
  {
    && s.actions[n].key in s.workers
    && s.workers[s.actions[n].key].Writing?
    && n in s.workers[s.actions[n].key].batch
  }

  /** A deferred action is still queued, and is never an upload; a pending group is deferred to its own deadline. */
  ghost predicate Deferral(s: State) {
    && s.now >= 0.0
    && (forall n :: 0 <= n < |s.actions| && s.actions[n].status.Waiting() && s.actions[n].readyAt > s.now
          ==> s.actions[n].status.Queued?)
    && (forall n :: 0 <= n < |s.actions| && s.actions[n].IsUpload() ==> s.actions[n].readyAt == 0.0)
    && (forall g: nat, n: nat :: g < |s.groups| && s.groups[g].pending && n in s.groups[g].actions ==>
      DueAtDeadline(s, g, n))
  }

  ghost predicate DueAtDeadline(s: State, g: nat, n: nat)
    requires g < |s.groups|
  {
    n < |s.actions| && s.actions[n].readyAt == s.groups[g].deadline
  }

  /** A capability is consumed once: each `undo` call in flight or over has a submission of its own, which is
      no longer active; while its inverse runs, its actions are still done. */
  ghost predicate Runs(s: State) {
    && (forall i, j :: 0 <= i < j < |s.runs| ==> s.runs[i].group != s.runs[j].group)
    && (forall i :: 0 <= i < |s.runs| ==> s.runs[i].group < |s.groups| && !s.groups[s.runs[i].group].active)
    && (forall i :: 0 <= i < |s.runs| && s.runs[i].phase.Remote? ==> AllDone(s, s.groups[s.runs[i].group].actions))
  }

  ghost predicate AllDone(s: State, numbers: seq<nat>) {
    forall n :: n in numbers ==> n < |s.actions| && s.actions[n].status.Done?
  }

  /** A granted receipt means quiescence: the submission is done and nothing else of its Tonie waits. */
  ghost predicate Quiet(s: State) {
    forall g :: 0 <= g < |s.groups| && s.groups[g].receipt.Some?
      ==> AllDone(s, s.groups[g].actions) && AtRest(s, s.groups[g].key)
  }

  ghost predicate AtRest(s: State, key: Key) {
    forall n :: 0 <= n < |s.actions| && s.actions[n].key == key ==> !s.actions[n].status.Waiting()
  }

  ghost predicate Inv(s: State) {
    Shape(s) && Store(s) && Registry(s) && Workers(s) && Deferral(s) && Runs(s) && Quiet(s)
  }

  lemma InvIsSane(s: State)
    requires Inv(s)
    ensures Sane(s)
  {
    forall k | k in s.workers && s.workers[k].Writing? ensures ValidNumbers(s, s.workers[k].batch) {
      assert WritesBatch(s, k, s.workers[k].batch);
    }
  }

  // ---- Shape ----

  /** The same submissions, whatever happened to their statuses and capabilities. */
  ghost predicate SameShape(s: State, t: State) {
    && |t.actions| == |s.actions| && |t.groups| == |s.groups|
    && (forall n :: 0 <= n < |s.actions| ==>
      t.actions[n].key == s.actions[n].key && t.actions[n].group == s.actions[n].group)
    && (forall g :: 0 <= g < |s.groups| ==>
      t.groups[g].key == s.groups[g].key && t.groups[g].actions == s.groups[g].actions)
  }

  lemma SameShapeKeeps(s: State, t: State)
    requires Shape(s) && SameShape(s, t)
    ensures Shape(t)
  {
    forall g: nat, n: nat | g < |t.groups| && n in t.groups[g].actions ensures Owned(t, g, n) {
      assert t.groups[g].actions == s.groups[g].actions && Owned(s, g, n);
    }
  }

  ghost predicate IsSubmission(e: Event) {
    e.Submit? || e.SubmitUpload?
  }

  /** How a worker's write can end. */
  datatype Ending = Lost(blank: bool) | Back(results: seq<OpResult>, write: Option<Write>)

  ghost predicate EndsAs(s: State, key: Key, batch: seq<nat>, ending: Ending, t: State)
    requires StoreFits(s) && ValidNumbers(s, batch)
  {
    match ending
    case Lost(blank) => t == WriteFailed(s, key, batch, blank)
    case Back(results, write) =>
      && |results| == |batch|
      && (write.Some? ==>
           && Happened(write.value) && write.value.ops == OpsOf(s, batch) && write.value.target == key
           && write.value.results == results && |write.value.receipt.steps| == |batch|
           && forall n :: n in batch ==> s.actions[n].session == write.value.session)
      && t == WriteReturned(s, key, batch, results, write)
  }

  /** What `api.apply` came to for a batch; an attempt that never reached it is refused. */
  ghost function OutcomeOf(s: State, key: Key, batch: seq<nat>, call: ApplyCall): WriteOutcome
    requires ValidNumbers(s, batch)
  {
    if call.Raised? || exists n :: n in batch && s.actions[n].session != call.session then Refused
    else ApplyOutcome(call.session, key, call.retitle, OpsOf(s, batch), call.cloud)
  }

  /** The confirmed write of a batch, if there was one. */
  ghost function WriteOf(s: State, key: Key, batch: seq<nat>, call: ApplyCall): Option<Write>
    requires ValidNumbers(s, batch)
  {
    match OutcomeOf(s, key, batch, call)
    case Written(results, receipt) =>
      Some(Write(call.session, key, call.retitle, OpsOf(s, batch), call.cloud, results, receipt))
    case _ => None
  }

  ghost predicate EndsFor(s: State, key: Key, batch: seq<nat>, call: ApplyCall, ending: Ending)
    requires ValidNumbers(s, batch)
  {
    var outcome := OutcomeOf(s, key, batch, call);
    if outcome.Unchanged? || outcome.Written? then ending == Back(outcome.results, WriteOf(s, key, batch, call))
    else ending == Lost(call.Raised? && call.text == "")
  }

  lemma AppliedEnds(s: State, key: Key, batch: seq<nat>, call: ApplyCall) returns (ending: Ending)
    requires StoreFits(s) && ValidNumbers(s, batch)
    ensures EndsAs(s, key, batch, ending, Applied(s, key, batch, call)) && EndsFor(s, key, batch, call, ending)
  {
    hide WriteFailed, WriteReturned, ApplyOutcome;
    if call.Raised? {
      ending := Lost(call.text == "");
    } else if exists n :: n in batch && s.actions[n].session != call.session {
      ending := Lost(false);
    } else {
      ending := CalledEnds(s, key, batch, call);
    }
  }

  lemma CalledEnds(s: State, key: Key, batch: seq<nat>, call: ApplyCall) returns (ending: Ending)
    requires StoreFits(s) && ValidNumbers(s, batch) && call.Called?
    requires !exists n :: n in batch && s.actions[n].session != call.session
    ensures EndsAs(s, key, batch, ending, Applied(s, key, batch, call)) && EndsFor(s, key, batch, call, ending)
  {
    hide WriteFailed, WriteReturned, ApplyOutcome, OpsOf;
    var outcome := ApplyOutcome(call.session, key, call.retitle, OpsOf(s, batch), call.cloud);
    if outcome.Written? {
      WrittenEnds(s, key, batch, call, outcome.results, outcome.receipt);
      ending := Back(outcome.results, WriteOf(s, key, batch, call));
    } else {
      ending := if outcome.Unchanged? then Back(outcome.results, None) else Lost(false);
    }
  }

  lemma WrittenEnds(s: State, key: Key, batch: seq<nat>, call: ApplyCall, results: seq<OpResult>, receipt: UndoReceipt)
    requires StoreFits(s) && ValidNumbers(s, batch) && call.Called?
    requires !exists n :: n in batch && s.actions[n].session != call.session
    requires ApplyOutcome(call.session, key, call.retitle, OpsOf(s, batch), call.cloud) == Written(results, receipt)
    ensures EndsAs(s, key, batch, Back(results, WriteOf(s, key, batch, call)), Applied(s, key, batch, call))
    ensures EndsFor(s, key, batch, call, Back(results, WriteOf(s, key, batch, call)))
  {
    hide WriteFailed, WriteReturned, ApplyOutcome, OpsOf;
    WriteReports(Write(call.session, key, call.retitle, OpsOf(s, batch), call.cloud, results, receipt));
  }

  lemma FailedSameShape(s: State, key: Key, batch: seq<nat>, blank: bool)
    requires ValidNumbers(s, batch)
    ensures SameShape(s, WriteFailed(s, key, batch, blank))
  {
    hide FinishedBelow;
  }

  lemma ReturnedSameShape(s: State, key: Key, batch: seq<nat>, results: seq<OpResult>, write: Option<Write>)
    requires StoreFits(s) && |results| == |batch|
    requires write.Some? ==> |write.value.receipt.steps| == |batch|
    ensures SameShape(s, WriteReturned(s, key, batch, results, write))
  {
    hide FinishedBelow, Lookup, IndexOf;
  }

  lemma EndingSameShape(s: State, key: Key, batch: seq<nat>, ending: Ending, t: State)
    requires StoreFits(s) && ValidNumbers(s, batch) && EndsAs(s, key, batch, ending, t)
    ensures SameShape(s, t)
  {
    hide Happened, OpsOf, WriteFailed, WriteReturned, SameShape;
    match ending {
      case Lost(blank) => FailedSameShape(s, key, batch, blank);
      case Back(results, write) => ReturnedSameShape(s, key, batch, results, write);
    }
  }

  lemma DoneSameShape(s: State, key: Key, call: ApplyCall)
    requires Sane(s)
    ensures SameShape(s, Next(s, WorkerDone(key, call)))
  {
    hide Applied, EndsAs;
    if key in s.workers && s.workers[key].Writing? {
      var ending := AppliedEnds(s, key, s.workers[key].batch, call);
      EndingSameShape(s, key, s.workers[key].batch, ending, Next(s, WorkerDone(key, call)));
    }
  }

  lemma OtherSameShape(s: State, e: Event)
    requires Sane(s) && !IsSubmission(e) && !e.WorkerDone?
    ensures SameShape(s, Next(s, e))
  {
    hide Next, SameShape, Sane;
    if e.UndoBegin? {
      BeginSameShape(s, e.action, e.session);
    } else {
      RestSameShape(s, e);
    }
  }

  lemma BeginSameShape(s: State, n: nat, session: Session)
    requires Sane(s)
    ensures SameShape(s, Next(s, UndoBegin(n, session)))
  {
    hide CanTake, Lookup, Sane;
  }

  lemma RestSameShape(s: State, e: Event)
    requires Sane(s) && !IsSubmission(e) && !e.WorkerDone? && !e.UndoBegin?
    ensures SameShape(s, Next(s, e))
  {
    hide Applied, Submitted, UploadSubmitted, CanTake, Took, AfterRefusal, ReadyBatch, DeadlineBelow, ResetBelow,
         NotifyAll, Sane;
  }

  lemma NextSameShape(s: State, e: Event)
    requires Sane(s) && !IsSubmission(e)
    ensures SameShape(s, Next(s, e))
  {
    hide Next, SameShape, Sane;
    if e.WorkerDone? { DoneSameShape(s, e.key, e.call); } else { OtherSameShape(s, e); }
  }

  lemma {:induction false} AppendShape(s: State, t: State, key: Key, count: nat)
    requires Shape(s) && count > 0
    requires |t.actions| == |s.actions| + count && |t.groups| == |s.groups| + 1
    requires forall n :: 0 <= n < |s.actions| ==>
      t.actions[n].key == s.actions[n].key && t.actions[n].group == s.actions[n].group
    requires forall g :: 0 <= g < |s.groups| ==>
      t.groups[g].key == s.groups[g].key && t.groups[g].actions == s.groups[g].actions
    requires forall n :: |s.actions| <= n < |t.actions| ==> t.actions[n].key == key && t.actions[n].group == |s.groups|
    requires t.groups[|s.groups|].key == key && t.groups[|s.groups|].actions == Numbers(|s.actions|, count)
    ensures Shape(t)
  {
    var numbers := Numbers(|s.actions|, count);
    forall n | 0 <= n < |t.actions| ensures n in t.groups[t.actions[n].group].actions {
      if n >= |s.actions| { assert numbers[n - |s.actions|] == n; }
    }
    forall g: nat, n: nat | g < |t.groups| && n in t.groups[g].actions ensures Owned(t, g, n) {
      if g < |s.groups| { assert t.groups[g].actions == s.groups[g].actions && Owned(s, g, n); }
    }
  }

  lemma RegisteredShape(s: State, key: Key, ops: seq<Op>, session: Session)
    requires Shape(s) && StoreFits(s) && ops != []
    ensures Shape(Registered(s, key, ops, session))
  {
    hide Shape, Kept, Newest, DefersDeletes;
    AppendShape(s, Registered(s, key, ops, session), key, |ops|);
  }

  // ---- The store ----

  lemma {:induction false} KeptAscends(groups: seq<Group>, latest: seq<nat>, key: Key, now: real)
    requires forall g :: g in latest ==> g < |groups|
    requires Ascends(latest)
    ensures Ascends(Kept(groups, latest, key, now))
  {
    if latest != [] {
      assert forall g :: g in latest[1..] ==> g in latest;
      KeptAscends(groups, latest[1..], key, now);
      var rest := Kept(groups, latest[1..], key, now);
      forall i | 0 <= i < |rest| ensures latest[0] < rest[i] {
        assert rest[i] in rest;
        var k :| 0 <= k < |latest[1..]| && latest[1..][k] == rest[i];
      }
    }
  }

  lemma AppendStore(s: State, t: State, kept: seq<nat>, key: Key)
    requires Store(s) && |kept| < MAX_UNDO_TARGETS
    requires Ascends(kept)
    requires forall g :: g in kept ==> g in s.latest && s.groups[g].key != key
    requires |t.groups| == |s.groups| + 1 && t.latest == kept + [|s.groups|]
    requires forall g :: 0 <= g < |s.groups| ==>
      t.groups[g] == if g in s.latest && g !in kept then s.groups[g].Invalidated() else s.groups[g]
    requires t.groups[|s.groups|].key == key && t.groups[|s.groups|].receipt.None?
    ensures Store(t)
  {
    forall i, j | 0 <= i < j < |t.latest| ensures t.latest[i] < t.latest[j] {
      assert kept[i] in kept;
    }
    assert forall g :: g in t.latest <==> g in kept || g == |s.groups|;
  }

  lemma NewestAscends(latest: seq<nat>)
    requires Ascends(latest)
    ensures Ascends(Newest(latest))
  {
    var r := Newest(latest);
    var skipped := |latest| - |r|;
    assert forall i :: 0 <= i < |r| ==> r[i] == latest[skipped + i];
  }

  lemma RegisteredStore(s: State, key: Key, ops: seq<Op>, session: Session)
    requires Store(s)
    ensures Store(Registered(s, key, ops, session))
  {
    KeptAscends(s.groups, s.latest, key, s.now);
    var kept := Newest(Kept(s.groups, s.latest, key, s.now));
    NewestAscends(Kept(s.groups, s.latest, key, s.now));
    hide Store, DefersDeletes, Kept, Newest, NewActions, Numbers, EnsureWorker;
    AppendStore(s, Registered(s, key, ops, session), kept, key);
  }

  /** Capabilities are only lost; nothing joins the store. */
  ghost predicate OnlyDrops(s: State, t: State) {
    && t.latest == s.latest && |t.groups| == |s.groups|
    && forall g :: 0 <= g < |s.groups| ==> t.groups[g] == s.groups[g] || t.groups[g] == s.groups[g].Invalidated()
  }

  lemma DropsKeepStore(s: State, t: State)
    requires Store(s) && OnlyDrops(s, t)
    ensures Store(t)
  {
  }

  lemma CompletedStore(s: State, key: Key, batch: seq<nat>, receipt: Option<UndoReceipt>)
    requires Store(s) && (receipt.Some? ==> |receipt.value.steps| == |batch|)
    ensures Store(Completed(s, key, batch, receipt))
  {
  }

  lemma EndingStore(s: State, key: Key, batch: seq<nat>, ending: Ending, t: State)
    requires Store(s) && ValidNumbers(s, batch) && EndsAs(s, key, batch, ending, t)
    ensures Store(t)
  {
    hide Happened, OpsOf, Completed;
    match ending {
      case Lost(_) => DropsKeepStore(s, t);
      case Back(results, write) =>
        var mid := Finished(s, key, batch, results, write);
        DropsKeepStore(s, mid);
        CompletedStore(mid, key, batch, ReceiptOf(write));
        DropsKeepStore(Completed(mid, key, batch, ReceiptOf(write)), t);
    }
  }

  /** Every other event leaves the store's entries, and at most ends capabilities. */
  lemma NextOnlyDrops(s: State, e: Event)
    requires Sane(s) && !IsSubmission(e) && !e.WorkerDone? && !e.Reset?
    ensures OnlyDrops(s, Next(s, e))
  {
    hide ReadyBatch, DeadlineBelow, Lookup, SetAll, SettleAll, NotifyAll, Applied, Submitted, UploadSubmitted, CanTake;
  }

  lemma NextIsApplied(s: State, key: Key, call: ApplyCall)
    requires Sane(s)
    ensures var writing := key in s.workers && s.workers[key].Writing?;
      && (writing ==> StoreFits(s) && ValidNumbers(s, s.workers[key].batch))
      && Next(s, WorkerDone(key, call)) == if writing then Applied(s, key, s.workers[key].batch, call) else s
  {
    hide Applied;
  }

  lemma DoneStore(s: State, key: Key, call: ApplyCall)
    requires Store(s) && Sane(s)
    ensures Store(Next(s, WorkerDone(key, call)))
  {
    hide Next, Sane, Applied, Store, EndsAs, EndsFor;
    NextIsApplied(s, key, call);
    if key in s.workers && s.workers[key].Writing? {
      var ending := AppliedEnds(s, key, s.workers[key].batch, call);
      EndingStore(s, key, s.workers[key].batch, ending, Next(s, WorkerDone(key, call)));
    }
  }

  lemma NextIsReset(s: State)
    requires Sane(s)
    ensures Next(s, Reset) == WasReset(s)
  {
    hide WasReset, Sane;
  }

  lemma NextStore(s: State, e: Event)
    requires Store(s) && Sane(s)
    ensures Store(Next(s, e))
  {
    hide Next, Store, Sane;
    if IsSubmission(e) {
      SubmissionKeepsStore(s, e);
    } else if e.WorkerDone? {
      DoneStore(s, e.key, e.call);
    } else if e.Reset? {
      NextIsReset(s);
      ResetStore(s);
    } else {
      NextOnlyDrops(s, e);
      DropsKeepStore(s, Next(s, e));
    }
  }

  /** What a submission registers, if it is accepted. */
  function Submission(e: Event): seq<Op>
    requires IsSubmission(e)
  {
    if e.Submit? then e.ops else [Attach("", e.title, 0.0, e.position)]
  }

  lemma SubmissionRegisters(s: State, e: Event)
    requires Sane(s) && IsSubmission(e) && Next(s, e) != s
    ensures Submission(e) != [] && e.key != "" && e.session !in s.closed
    ensures e.Submit? ==> forall op :: op in e.ops ==> IsEdit(op)
    ensures var t := Registered(s, e.key, Submission(e), e.session);
      Next(s, e) == if e.Submit? then t.(workers := NotifyAll(t.workers)) else t.(unsent := s.unsent + {|s.actions|})
  {
    hide Registered;
  }

  lemma SubmissionKeepsStore(s: State, e: Event)
    requires Store(s) && Sane(s) && IsSubmission(e)
    ensures Store(Next(s, e))
  {
    hide Registered, Store, Next;
    if Next(s, e) != s {
      SubmissionRegisters(s, e);
      RegisteredStore(s, e.key, Submission(e), e.session);
      DropsKeepStore(Registered(s, e.key, Submission(e), e.session), Next(s, e));
    }
  }

  lemma ResetStore(s: State)
    requires Store(s)
    ensures Store(WasReset(s))
  {
  }

  // ---- Action statuses ----

  /** Statuses only move down this order, and never back to waiting. */
  ghost predicate Descends(a: Status, b: Status) {
    match a
    case Queued => b in {Queued, Transferring, Applying, Canceled}
    case Transferring => b in {Transferring, Ready, Done, Failed, Canceled}
    case Ready => b in {Ready, Applying, Canceled}
    case Applying => b in {Applying, Done, Failed}
    case Done => b in {Done, Undone}
    case _ => b == a
  }

  ghost predicate ActionStep(a: Action, b: Action) {
    && b.key == a.key && b.group == a.group && b.readyAt == a.readyAt && b.session == a.session
    && b.IsUpload() == a.IsUpload() && (b.op == a.op || (a.status.Transferring? && b.status.Ready?))
    && Descends(a.status, b.status)
    && (b.finished <==> !b.status.Waiting())
    && (b.status.Transferring? || b.status.Ready? ==> b.IsUpload())
  }

  ghost predicate ActionSteps(s: State, t: State) {
    && |s.actions| <= |t.actions|
    && forall n :: 0 <= n < |s.actions| ==> ActionStep(s.actions[n], t.actions[n])
  }

  /** Only uploads are sent, and an upload in transit is transferring unless it was canceled meanwhile. */
  ghost predicate Transit(s: State) {
    && (forall n :: n in s.transit ==>
          n < |s.actions| && s.actions[n].IsUpload() && s.actions[n].status in {Transferring, Canceled})
    && (forall n :: n in s.unsent ==> n < |s.actions| && s.actions[n].IsUpload())
  }

  lemma RegistryFollows(s: State, t: State)
    requires Registry(s) && ActionSteps(s, t) && Transit(t) && |t.actions| == |s.actions|
    requires t.listed <= s.listed
    requires forall n :: n in s.listed && n !in t.listed && n < |s.actions| ==> !t.actions[n].status.Waiting()
    ensures Registry(t)
  {
  }

  lemma SettledSteps(s: State, t: State, batch: seq<nat>)
    requires Registry(s) && |t.actions| == |s.actions|
    requires forall n :: n in batch ==> n < |s.actions| && s.actions[n].status.Applying?
    requires forall n :: 0 <= n < |s.actions| ==>
      if n in batch then t.actions[n] == Settled(s.actions[n], Done) || t.actions[n] == Settled(s.actions[n], Failed)
      else t.actions[n] == s.actions[n]
    ensures ActionSteps(s, t)
  {
  }

  lemma EndingSettles(s: State, key: Key, batch: seq<nat>, ending: Ending, t: State)
    requires StoreFits(s) && ValidNumbers(s, batch) && EndsAs(s, key, batch, ending, t)
    ensures |t.actions| == |s.actions|
    ensures forall n :: 0 <= n < |s.actions| ==>
      if n in batch then t.actions[n] == Settled(s.actions[n], Done) || t.actions[n] == Settled(s.actions[n], Failed)
      else t.actions[n] == s.actions[n]
  {
    hide Happened, OpsOf, IndexOf, FinishedBelow, Lookup;
  }

  lemma EndingSteps(s: State, key: Key, batch: seq<nat>, ending: Ending, t: State)
    requires Registry(s) && StoreFits(s) && WritesBatch(s, key, batch) && ValidNumbers(s, batch)
    requires EndsAs(s, key, batch, ending, t)
    ensures ActionSteps(s, t)
  {
    hide EndsAs, Registry, ActionSteps;
    EndingSettles(s, key, batch, ending, t);
    SettledSteps(s, t, batch);
  }

  lemma EndingTransit(s: State, key: Key, batch: seq<nat>, ending: Ending, t: State)
    requires Registry(s) && StoreFits(s) && WritesBatch(s, key, batch) && ValidNumbers(s, batch)
    requires EndsAs(s, key, batch, ending, t)
    ensures Transit(t)
  {
    hide Registry, Transit, EndsAs;
    EndingSettles(s, key, batch, ending, t);
    EndingKeepsTransit(s, key, batch, ending, t);
    SettledTransit(s, t, batch);
  }

  lemma EndingKeepsTransit(s: State, key: Key, batch: seq<nat>, ending: Ending, t: State)
    requires StoreFits(s) && ValidNumbers(s, batch) && EndsAs(s, key, batch, ending, t)
    ensures t.transit == s.transit && t.unsent == s.unsent
  {
    hide Happened, OpsOf, IndexOf, FinishedBelow, Lookup;
  }

  lemma SettledTransit(s: State, t: State, batch: seq<nat>)
    requires Registry(s) && |t.actions| == |s.actions| && t.transit == s.transit && t.unsent == s.unsent
    requires forall n :: n in batch ==> n < |s.actions| && s.actions[n].status.Applying?
    requires forall n :: 0 <= n < |s.actions| ==>
      if n in batch then t.actions[n] == Settled(s.actions[n], Done) || t.actions[n] == Settled(s.actions[n], Failed)
      else t.actions[n] == s.actions[n]
    ensures Transit(t)
  {
  }

  lemma EndingListed(s: State, key: Key, batch: seq<nat>, ending: Ending, t: State)
    requires StoreFits(s) && ValidNumbers(s, batch) && EndsAs(s, key, batch, ending, t)
    ensures |t.actions| == |s.actions| && t.listed <= s.listed
    ensures forall n :: n in s.listed && n !in t.listed && n < |s.actions| ==> !t.actions[n].status.Waiting()
  {
    hide Happened, OpsOf, IndexOf, FinishedBelow;
  }

  lemma CancelledSteps(s: State, n: nat)
    requires Registry(s) && Sane(s)
    ensures ActionSteps(s, Cancelled(s, n)) && Transit(Cancelled(s, n))
  {
    hide Registry, ActionSteps, Transit, InvalidateAll, NotifyAll;
    CancelSteps(s, Cancelled(s, n));
  }

  lemma TookSteps(s: State, n: nat, session: Session)
    requires Registry(s) && StoreFits(s) && CanTake(s, n, session)
    ensures ActionSteps(s, Took(s, n, session)) && Transit(Took(s, n, session))
  {
    hide Registry, ActionSteps, Transit;
    TookCancels(s, n, session);
    CancelSteps(s, Took(s, n, session));
  }

  /** Undo cancels the queued deletes of its submission, or leaves every action alone. */
  lemma TookCancels(s: State, n: nat, session: Session)
    requires StoreFits(s) && CanTake(s, n, session)
    ensures var t := Took(s, n, session);
      && |t.actions| == |s.actions| && t.transit == s.transit && t.unsent == s.unsent
      && forall m :: 0 <= m < |s.actions| ==>
           t.actions[m] == s.actions[m] || (s.actions[m].status.Queued?
             && t.actions[m] == Settled(s.actions[m], Canceled))
  {
    hide Lookup;
  }

  lemma CancelSteps(s: State, t: State)
    requires Registry(s) && |t.actions| == |s.actions| && t.transit == s.transit && t.unsent == s.unsent
    requires forall m :: 0 <= m < |s.actions| ==>
      t.actions[m] == s.actions[m] || (s.actions[m].status.Queued? && t.actions[m] == Settled(s.actions[m], Canceled))
    ensures ActionSteps(s, t) && Transit(t)
  {
  }

  lemma UndoBeginSteps(s: State, n: nat, session: Session)
    requires Registry(s) && Sane(s)
    ensures ActionSteps(s, Next(s, UndoBegin(n, session))) && Transit(Next(s, UndoBegin(n, session)))
  {
    hide Lookup, Took, CanTake, ActionSteps;
    if CanTake(s, n, session) {
      TookSteps(s, n, session);
    } else {
      UnchangedSteps(s);
      hide Registry;
      assert Next(s, UndoBegin(n, session)).actions == s.actions;
      SameActions(s, Next(s, UndoBegin(n, session)));
    }
  }

  lemma SameActions(s: State, t: State)
    requires Registry(s) && t.actions == s.actions && t.transit == s.transit && t.unsent == s.unsent
    ensures ActionSteps(s, t) && Transit(t)
  {
  }

  lemma UndoRecordSteps(s: State, run: nat, confirmed: bool)
    requires Registry(s) && Runs(s)
    ensures ActionSteps(s, UndoRecorded(s, run, confirmed)) && Transit(UndoRecorded(s, run, confirmed))
  {
  }

  lemma TransferBeginSteps(s: State, n: nat)
    requires Registry(s)
    ensures ActionSteps(s, TransferBegun(s, n)) && Transit(TransferBegun(s, n))
  {
    hide SetAll, Transit;
    BegunTransit(s, n);
  }

  lemma BegunTransit(s: State, n: nat)
    requires Registry(s)
    ensures Transit(TransferBegun(s, n))
  {
    hide SetAll;
  }

  lemma TransferEndSteps(s: State, n: nat, prepared: Prepared)
    requires Registry(s)
    ensures ActionSteps(s, TransferEnded(s, n, prepared)) && Transit(TransferEnded(s, n, prepared))
  {
  }

  lemma CollectedSteps(s: State, key: Key)
    requires Registry(s)
    ensures ActionSteps(s, Collected(s, key)) && Transit(Collected(s, key))
  {
    hide BatchBelow;
  }

  lemma ResetSteps(s: State)
    requires Registry(s)
    ensures ActionSteps(s, WasReset(s)) && Transit(WasReset(s))
  {
  }

  /** These events touch no action. */
  ghost predicate IsStill(e: Event) {
    e.Tick? || e.UndoFinish? || e.Wake? || e.WorkerLook? || e.Close? || e.Probe?
  }

  lemma StillSteps(s: State, e: Event)
    requires Registry(s) && Sane(s) && IsStill(e)
    ensures Next(s, e).actions == s.actions && Next(s, e).transit == s.transit && Next(s, e).unsent == s.unsent
    ensures ActionSteps(s, Next(s, e))
  {
    hide Registry, ActionSteps, Transit, ReadyBatch, DeadlineBelow, InvalidateAll, NotifyAll, Applied, Submitted,
         UploadSubmitted, CanTake;
    SameActions(s, Next(s, e));
  }

  lemma NextListed(s: State, e: Event)
    requires Sane(s) && !IsSubmission(e) && !e.WorkerDone?
    ensures Next(s, e).listed == s.listed && |Next(s, e).actions| == |s.actions|
  {
    hide ReadyBatch, DeadlineBelow, Lookup, ResetBelow, InvalidateAll, NotifyAll, SetAll, SettleAll, CanTake, Applied,
         Submitted, UploadSubmitted, Sane;
  }

  lemma SubmissionSteps(s: State, e: Event)
    requires Registry(s) && Sane(s) && IsSubmission(e)
    ensures ActionSteps(s, Next(s, e)) && Registry(Next(s, e))
  {
    hide Next;
    if Next(s, e) != s {
      SubmissionRegisters(s, e);
      hide DefersDeletes, Kept, Newest;
      AppendRegistry(s, Next(s, e), |Submission(e)|);
    }
  }

  lemma AppendRegistry(s: State, t: State, count: nat)
    requires Registry(s) && |t.actions| == |s.actions| + count
    requires t.actions[..|s.actions|] == s.actions
    requires forall n :: |s.actions| <= n < |t.actions| ==> t.actions[n].status.Queued? && !t.actions[n].finished
    requires forall n :: n in t.listed <==> n in s.listed || |s.actions| <= n < |t.actions|
    requires t.transit == s.transit
    requires t.unsent <= s.unsent
      || (t.unsent <= s.unsent + {|s.actions|} && count > 0 && t.actions[|s.actions|].IsUpload())
    ensures ActionSteps(s, t) && Registry(t)
  {
    forall n | 0 <= n < |s.actions| ensures t.actions[n] == s.actions[n] {
      assert t.actions[..|s.actions|][n] == t.actions[n];
    }
  }

  lemma DoneSteps(s: State, key: Key, call: ApplyCall)
    requires Registry(s) && Workers(s) && Sane(s)
    ensures ActionSteps(s, Next(s, WorkerDone(key, call))) && Registry(Next(s, WorkerDone(key, call)))
  {
    hide Applied, EndsAs, Registry, ActionSteps;
    if key in s.workers && s.workers[key].Writing? {
      var t := Next(s, WorkerDone(key, call));
      var ending := AppliedEnds(s, key, s.workers[key].batch, call);
      EndingSteps(s, key, s.workers[key].batch, ending, t);
      EndingTransit(s, key, s.workers[key].batch, ending, t);
      EndingListed(s, key, s.workers[key].batch, ending, t);
      RegistryFollows(s, t);
    } else {
      UnchangedSteps(s);
    }
  }

  lemma UnchangedSteps(s: State)
    requires Registry(s)
    ensures ActionSteps(s, s)
  {
  }

  /** In one step an action keeps its Tonie and submission, its status only descends, and the registry stays right. */
  lemma NextSteps(s: State, e: Event)
    requires Registry(s) && Workers(s) && Runs(s) && Sane(s)
    ensures ActionSteps(s, Next(s, e)) && Registry(Next(s, e))
  {
    if IsSubmission(e) {
      SubmissionSteps(s, e);
    } else if e.WorkerDone? {
      DoneSteps(s, e.key, e.call);
    } else {
      NextTransit(s, e);
      NextListed(s, e);
      RegistryFollows(s, Next(s, e));
    }
  }

  lemma NextTransit(s: State, e: Event)
    requires Registry(s) && Runs(s) && Sane(s) && !IsSubmission(e) && !e.WorkerDone?
    ensures ActionSteps(s, Next(s, e)) && Transit(Next(s, e))
  {
    hide ActionSteps, Transit, Registry, Runs, Sane, Cancelled, UndoRecorded, TransferBegun, TransferEnded, Collected,
         WasReset, Took, AfterRefusal, CanTake, InverseDone, Submitted, UploadSubmitted, Applied, Woken, Looked, Probed;
    if IsStill(e) {
      StillSteps(s, e);
      SameActions(s, Next(s, e));
    } else {
      match e {
        case Cancel(n) => CancelledSteps(s, n);
        case UndoBegin(n, session) => UndoBeginSteps(s, n, session);
        case UndoRecord(run, cloud) => UndoRecordSteps(s, run, InverseDone(s, run, cloud));
        case TransferBegin(n) => TransferBeginSteps(s, n);
        case TransferEnd(n, prepared) => TransferEndSteps(s, n, prepared);
        case WorkerCollect(key) => CollectedSteps(s, key);
        case Reset => ResetSteps(s);
        case _ => assert false;
      }
    }
  }
}
