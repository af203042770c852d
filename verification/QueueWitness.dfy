/** Runs from the empty queue: how any confirmed write comes about, and what can come after it. */
module QueueWitness {
  import opened Lists
  import opened Planner
  import opened UndoSteps
  import opened UndoLaws
  import opened CloudContent
  import opened CloudWrite
  import opened CloudLaws
  import opened CloudCounterexamples
  import opened Queue
  import opened QueueInvariants
  import opened QueueSteps
  import opened QueueGrants
  import opened QueueWake
  import opened QueueOverlap
  import opened QueueRuns
  import opened QueueCounterexamples

  // ---- A run for every write ----

  /** Ops that a browser can submit one by one and that nothing defers. */
  ghost predicate Submittable(ops: seq<Op>) {
    forall k :: 0 <= k < |ops| ==> ops[k].Attach? || (IsEdit(ops[k]) && !ops[k].Delete?)
  }

  /** An upload has no file yet when it is submitted. */
  function AsSubmitted(op: Op): Op {
    if op.Attach? then Attach("", op.title, 0.0, op.position) else op
  }

  function SubmissionOf(key: Key, op: Op, session: Session): Event {
    if op.Attach? then SubmitUpload(key, op.title, op.position, session) else Submit(key, [op], session)
  }

  function Submissions(key: Key, ops: seq<Op>, session: Session): (r: seq<Event>)
    ensures |r| == |ops| && forall k :: 0 <= k < |ops| ==> r[k] == SubmissionOf(key, ops[k], session)
  {
    seq(|ops|, k requires 0 <= k < |ops| => SubmissionOf(key, ops[k], session))
  }

  /** Sending the audio of the first `n` ops. */
  function Transfers(ops: seq<Op>, n: nat): seq<Event>
    requires n <= |ops|
  {
    if n == 0 then []
    else
      Transfers(ops, n - 1) + if ops[n - 1].Attach? then SendOf(ops, n - 1) else []
  }

  function SendOf(ops: seq<Op>, n: nat): seq<Event>
    requires n < |ops| && ops[n].Attach?
  {
    [TransferBegin(n), TransferEnd(n, Sent(ops[n].fileId, ops[n].seconds))]
  }

  /** The worker looks, collects everything and gets this write out of the cloud. */
  function Writes(w: Write): seq<Event> {
    [WorkerLook(w.target, 0.0), WorkerCollect(w.target), WorkerDone(w.target, Called(w.session, w.retitle, w.cloud))]
  }

  function RunOf(w: Write): seq<Event> {
    Submissions(w.target, w.ops, w.session) + Transfers(w.ops, |w.ops|) + Writes(w)
  }

  /** The first `n` ops are submitted, and the first `m` of these are ready. */
  ghost predicate Filled(s: State, key: Key, ops: seq<Op>, session: Session, n: nat, m: nat) {
    && m <= n <= |ops| && |s.actions| == n && |s.groups| == n
    && (forall k :: 0 <= k < n ==> s.actions[k] == InQueue(key, ops[k], session, k, k < m))
    && (forall g :: 0 <= g < n ==> s.groups[g].key == key)
    && (if n == 0 then s.latest == [] && s.workers == map[]
        else s.latest == [n - 1] && s.groups[n - 1] == Fresh(key, n - 1, session) && s.workers == map[key := Awake])
    && s.now == 0.0 && s.listed == ToSet(Numbers(0, n)) && s.undoing == {} && s.closed == {} && s.runs == []
      && s.transit == {}
    && s.lastWrite == map[] && (forall k :: k in s.unsent <==> m <= k < n && ops[k].Attach?)
  }

  function InQueue(key: Key, op: Op, session: Session, k: nat, sent: bool): Action {
    Action(key, if sent then op else AsSubmitted(op),
           if sent && op.Attach? then Ready else Queued, false, k, session, 0.0)
  }

  function Fresh(key: Key, n: nat, session: Session): Group {
    Group(key, [n], session, UNDO_TTL, false, true, None, [])
  }

  lemma NextNumber(n: nat)
    ensures ToSet(Numbers(0, n + 1)) == ToSet(Numbers(0, n)) + {n}
  {
    assert forall x :: x in ToSet(Numbers(0, n + 1)) <==> x in ToSet(Numbers(0, n)) + {n};
  }

  lemma SubmitsOne(s: State, key: Key, op: Op, session: Session)
    requires Sane(s) && key != "" && session !in s.closed && (op.Attach? || IsEdit(op))
    ensures StoreFits(s)
    ensures var t, r := Next(s, SubmissionOf(key, op, session)), Registered(s, key, [AsSubmitted(op)], session);
      t == if op.Attach? then r.(unsent := s.unsent + {|s.actions|}) else r.(workers := NotifyAll(r.workers))
  {
    hide Registered;
    assert [op][0] == op;
  }

  lemma RegisteredRest(s: State, key: Key, op: Op, session: Session)
    requires StoreFits(s)
    ensures var t := Registered(s, key, [op], session);
      && t.transit == s.transit && t.unsent == s.unsent && t.workers == EnsureWorker(s.workers, key)
        && t.lastWrite == s.lastWrite
      && |t.groups| == |s.groups| + 1 && forall g :: 0 <= g < |s.groups| ==> t.groups[g].key == s.groups[g].key
  {
    hide Kept, Newest, DefersDeletes, NewActions, Numbers, ToSet, EnsureWorker;
  }

  lemma OnlyLatest(t: State, key: Key, g: nat)
    requires Store(t) && t.latest != [] && t.latest[|t.latest| - 1] == g
    requires forall h :: h in t.latest && h != g ==> h < |t.groups| && t.groups[h].key != key
    requires forall h :: 0 <= h < |t.groups| ==> t.groups[h].key == key
    ensures t.latest == [g]
  {
    forall i | 0 <= i < |t.latest| ensures t.latest[i] == g {
      assert t.latest[i] in t.latest;
    }
    var last := |t.latest| - 1;
    assert t.latest[0] == t.latest[last];
  }

  lemma WakesOne(workers: map<Key, Worker>, key: Key)
    requires workers == map[] || workers == map[key := Awake]
    ensures EnsureWorker(workers, key) == NotifyAll(EnsureWorker(workers, key)) == map[key := Awake]
  {
  }

  lemma FillsOne(s: State, key: Key, ops: seq<Op>, session: Session, n: nat)
    requires Filled(s, key, ops, session, n, 0) && n < |ops| && key != "" && Submittable(ops) && Sane(s)
    requires Store(Next(s, SubmissionOf(key, ops[n], session)))
    ensures Filled(Next(s, SubmissionOf(key, ops[n], session)), key, ops, session, n + 1, 0)
  {
    hide Next, Sane, Registered, Store, Numbers, ToSet, NotifyAll, EnsureWorker, StoreFits;
    var op, t := ops[n], Next(s, SubmissionOf(key, ops[n], session));
    SubmitsOne(s, key, op, session);
    RegisteredAdds(s, key, AsSubmitted(op), session);
    RegisteredRest(s, key, AsSubmitted(op), session);
    NextNumber(n);
    WakesOne(s.workers, key);
    assert forall k :: 0 <= k < n ==> t.actions[k] == t.actions[..n][k];
    OnlyLatest(t, key, n);
  }

  lemma {:induction false} AllSubmitted(key: Key, ops: seq<Op>, session: Session, n: nat)
    requires n <= |ops| && key != "" && Submittable(ops)
    ensures Filled(Reached(Submissions(key, ops, session)[..n]), key, ops, session, n, 0)
    decreases n
  {
    hide Reached, Holds, Next, Filled, Submissions, SubmissionOf, Sane, Store;
    var es := Submissions(key, ops, session);
    if n == 0 {
      assert es[..0] == [];
      ReachedNothing();
      NothingFilled(key, ops, session);
    } else {
      AllSubmitted(key, ops, session, n - 1);
      assert es[..n] == es[..n - 1] + [es[n - 1]];
      ReachedOneMore(es[..n - 1], es[n - 1]);
      HoldsParts(Reached(es[..n - 1]));
      HoldsParts(Reached(es[..n]));
      FillsOne(Reached(es[..n - 1]), key, ops, session, n - 1);
    }
  }

  lemma NothingFilled(key: Key, ops: seq<Op>, session: Session)
    ensures Filled(INIT, key, ops, session, 0, 0)
  {
    assert Numbers(0, 0) == [];
  }

  // ---- The audio ----

  lemma EditIsReadyAsIs(s: State, key: Key, ops: seq<Op>, session: Session, m: nat)
    requires Filled(s, key, ops, session, |ops|, m) && m < |ops| && !ops[m].Attach?
    ensures Filled(s, key, ops, session, |ops|, m + 1)
  {
  }

  lemma SendsOne(s: State, key: Key, ops: seq<Op>, session: Session, m: nat)
    requires Filled(s, key, ops, session, |ops|, m) && m < |ops| && ops[m].Attach?
    ensures Filled(TransferEnded(TransferBegun(s, m), m, Sent(ops[m].fileId, ops[m].seconds)), key, ops, session,
      |ops|, m + 1)
  {
    var t := TransferBegun(s, m);
    assert t.transit == {m} && t.actions == s.actions[m := s.actions[m].(status := Transferring)];
    var u := TransferEnded(t, m, Sent(ops[m].fileId, ops[m].seconds));
    assert u.transit == {};
    assert u.actions == s.actions[m := s.actions[m].(status := Ready, op := ops[m])];
    assert u.workers == map[key := Awake];
  }

  lemma {:induction false} AllSent(key: Key, ops: seq<Op>, session: Session, m: nat)
    requires m <= |ops| && key != "" && Submittable(ops)
    ensures Filled(Reached(Submissions(key, ops, session) + Transfers(ops, m)), key, ops, session, |ops|, m)
    decreases m
  {
    hide Reached, Holds, Next, Filled, Submissions, Sane, TransferBegun, TransferEnded;
    var es := Submissions(key, ops, session);
    if m == 0 {
      AllSubmitted(key, ops, session, |ops|);
      assert es[..|ops|] == es && es + Transfers(ops, 0) == es;
    } else {
      AllSent(key, ops, session, m - 1);
      var run := es + Transfers(ops, m - 1);
      if ops[m - 1].Attach? {
        SentNext(run, key, ops, session, m - 1);
        assert es + Transfers(ops, m) == run + SendOf(ops, m - 1);
      } else {
        assert es + Transfers(ops, m) == run;
        EditIsReadyAsIs(Reached(run), key, ops, session, m - 1);
      }
    }
  }

  lemma {:induction false} SentNext(run: seq<Event>, key: Key, ops: seq<Op>, session: Session, m: nat)
    requires m < |ops| && ops[m].Attach? && Filled(Reached(run), key, ops, session, |ops|, m)
    ensures Filled(Reached(run + SendOf(ops, m)), key, ops, session, |ops|, m + 1)
  {
    hide Reached, Holds, Next, Filled, Sane, TransferBegun, TransferEnded;
    var begin, end := TransferBegin(m), TransferEnd(m, Sent(ops[m].fileId, ops[m].seconds));
    assert run + SendOf(ops, m) == run + [begin] + [end];
    HoldsParts(Reached(run));
    ReachedOneMore(run, begin);
    HoldsParts(Reached(run + [begin]));
    ReachedOneMore(run + [begin], end);
    NextTransfers(Reached(run), begin);
    NextTransfers(Reached(run + [begin]), end);
    SendsOne(Reached(run), key, ops, session, m);
  }

  lemma NextTransfers(s: State, e: Event)
    requires Sane(s)
    ensures e.TransferBegin? ==> Next(s, e) == TransferBegun(s, e.action)
    ensures e.TransferEnd? ==> Next(s, e) == TransferEnded(s, e.action, e.prepared)
  {
    hide TransferBegun, TransferEnded;
  }

  // ---- The write ----

  lemma {:induction false} TakesAll(s: State, key: Key, ops: seq<Op>, session: Session, bound: nat)
    requires Filled(s, key, ops, session, |ops|, |ops|) && bound <= |ops|
    ensures BatchBelow(s, key, bound) == Numbers(0, bound)
    decreases bound
  {
    if bound > 0 {
      TakesAll(s, key, ops, session, bound - 1);
      FilledIsBatchable(s, key, ops, session, bound - 1);
      hide Filled, Batchable;
    }
  }

  lemma FilledIsBatchable(s: State, key: Key, ops: seq<Op>, session: Session, n: nat)
    requires Filled(s, key, ops, session, |ops|, |ops|) && n < |ops|
    ensures Batchable(s, key, n)
  {
    assert n in Numbers(0, |ops|);
  }

  /** Everything is in the write, and nothing else happened. */
  ghost predicate InWrite(s: State, key: Key, ops: seq<Op>, session: Session) {
    var n := |ops|;
    && n > 0 && |s.actions| == n && |s.groups| == n && s.latest == [n - 1]
      && s.groups[n - 1] == Fresh(key, n - 1, session)
    && (forall k :: 0 <= k < n ==> s.actions[k] == Action(key, ops[k], Applying, false, k, session, 0.0))
    && s.workers == map[key := Writing(Numbers(0, n))] && s.now == 0.0 && s.listed == ToSet(Numbers(0, n))
    && s.closed == {} && s.runs == [] && s.lastWrite == map[]
  }

  lemma {:induction false} Looks(s: State, key: Key, ops: seq<Op>, session: Session)
    requires Filled(s, key, ops, session, |ops|, |ops|) && ops != []
    ensures ReadyBatch(s, key) == Numbers(0, |ops|)
    ensures Looked(s, key, 0.0) == s.(workers := map[key := Collecting])
  {
    hide BatchBelow, Numbers, Batchable, ToSet;
    TakesAll(s, key, ops, session, |ops|);
    assert s.workers[key := Collecting] == map[key := Collecting];
  }

  lemma Collects(s: State, key: Key, ops: seq<Op>, session: Session)
    requires Filled(s, key, ops, session, |ops|, |ops|) && ops != []
    ensures InWrite(Collected(s.(workers := map[key := Collecting]), key), key, ops, session)
  {
    hide BatchBelow, Numbers, Batchable, ToSet;
    var t := s.(workers := map[key := Collecting]);
    Looks(s, key, ops, session);
    SameBatchBelow(s, t, key, |ops|);
    var batch := ReadyBatch(t, key);
    assert batch == Numbers(0, |ops|);
    assert t.workers[key := Writing(batch)] == map[key := Writing(batch)];
    forall k | 0 <= k < |ops|
      ensures k in batch && SetAll(t.actions, batch, Applying)[k] == s.actions[k].(status := Applying)
    {
      assert k in Numbers(0, |ops|);
    }
  }

  lemma {:induction false} SameBatchBelow(s: State, t: State, key: Key, bound: nat)
    requires t == s.(workers := t.workers)
    ensures BatchBelow(t, key, bound) == BatchBelow(s, key, bound)
    decreases bound
  {
    if bound > 0 {
      SameBatchBelow(s, t, key, bound - 1);
      assert Batchable(t, key, bound - 1) <==> Batchable(s, key, bound - 1) by {
        assert forall m :: Pending(t, key, m) <==> Pending(s, key, m);
      }
      hide Batchable;
    }
  }

  /** It was written, confirmed, and its last submission granted a receipt. */
  ghost predicate WrittenOut(t: State, w: Write) {
    var n := |w.ops|;
    && n > 0 && |t.actions| == n && |t.groups| == n && t.latest == [n - 1]
    && t.groups[n - 1] == Group(w.target, [n - 1], w.session, UNDO_TTL, false, true, Some(w.receipt), [n - 1])
    && n - 1 in t.listed && t.actions[n - 1].key == w.target && t.closed == {} && t.runs == [] && t.now == 0.0
    && t.lastWrite == map[w.target := LastWrite(Numbers(0, n), w)]
  }

  lemma {:induction false} InWriteFits(s: State, key: Key, ops: seq<Op>, session: Session)
    requires InWrite(s, key, ops, session)
    ensures StoreFits(s) && ValidNumbers(s, Numbers(0, |ops|)) && OpsOf(s, Numbers(0, |ops|)) == ops
    ensures forall n :: n in Numbers(0, |ops|) ==> s.actions[n].session == session
  {
  }

  lemma AppliesWrite(s: State, w: Write)
    requires InWrite(s, w.target, w.ops, w.session) && Happened(w)
    ensures StoreFits(s) && ValidNumbers(s, Numbers(0, |w.ops|)) && |w.results| == |w.ops| == |w.receipt.steps|
    ensures Applied(s, w.target, Numbers(0, |w.ops|), Called(w.session, w.retitle, w.cloud))
            == WriteReturned(s, w.target, Numbers(0, |w.ops|), w.results, Some(w))
  {
    hide ApplyOutcome, WriteReturned, WriteFailed, InWrite, OpsOf, Numbers;
    InWriteFits(s, w.target, w.ops, w.session);
    WriteReports(w);
  }

  lemma {:induction false} Counts(n: nat)
    ensures |ToSet(Numbers(0, n))| == n
  {
    if n == 0 {
      assert ToSet(Numbers(0, 0)) == {};
    } else {
      Counts(n - 1);
      NextNumber(n - 1);
    }
  }

  /** After the results are in, nothing waits. */
  ghost predicate AllSettled(mid: State, w: Write) {
    var n := |w.ops|;
    && n > 0 && |mid.actions| == n && |mid.groups| == n && mid.latest == [n - 1]
    && mid.groups[n - 1] == Fresh(w.target, n - 1, w.session) && mid.actions[n - 1].status == Done
    && (forall k :: 0 <= k < n ==> !mid.actions[k].status.Waiting() && mid.actions[k].key == w.target)
    && mid.listed == ToSet(Numbers(0, n)) && mid.closed == {} && mid.runs == [] && mid.now == 0.0
    && mid.lastWrite == map[w.target := LastWrite(Numbers(0, n), w)]
  }

  lemma Settles(s: State, w: Write)
    requires InWrite(s, w.target, w.ops, w.session) && |w.results| == |w.ops| && w.results[|w.ops| - 1].error.None?
    ensures AllSettled(Finished(s, w.target, Numbers(0, |w.ops|), w.results, Some(w)), w)
  {
    hide ToSet, Numbers, IndexOf, FinishAll;
    var n := |w.ops|;
    AllNumbers(n);
    IndexIs(Numbers(0, n), n - 1);
    var mid := Finished(s, w.target, Numbers(0, n), w.results, Some(w));
    forall k | 0 <= k < n ensures !mid.actions[k].status.Waiting() && mid.actions[k].key == w.target {
      assert k in Numbers(0, n);
    }
  }

  lemma {:induction false} AllNumbers(n: nat)
    ensures Ascends(Numbers(0, n)) && forall k :: 0 <= k < n ==> k in Numbers(0, n) && Numbers(0, n)[k] == k
  {
  }

  lemma Grants1(mid: State, w: Write)
    requires AllSettled(mid, w) && |w.receipt.steps| == |w.ops| && w.receipt.steps[|w.ops| - 1].Some?
    ensures StoreFits(mid)
    ensures var t := Completed(mid, w.target, Numbers(0, |w.ops|), Some(w.receipt));
      && t.groups[..|w.ops| - 1] == mid.groups[..|w.ops| - 1] && t == mid.(groups := t.groups) && |t.groups| == |w.ops|
      && t.groups[|w.ops| - 1] == Group(w.target, [|w.ops| - 1], w.session, UNDO_TTL, false, true, Some(w.receipt),
        [|w.ops| - 1])
  {
    hide ToSet;
    var n := |w.ops|;
    var batch := Numbers(0, n);
    assert n - 1 in batch && batch[n - 1] == n - 1;
    IndexIs(batch, n - 1);
    assert Lookup(mid.groups, mid.latest, w.target) == Some(n - 1);
    hide IndexOf, Numbers, Lookup;
    assert !HasPending(mid, w.target);
  }

  lemma {:induction false} NothingPruned(t: State, n: nat)
    requires t.listed == ToSet(Numbers(0, n)) && n <= MAX_HISTORY
    ensures Pruned(t) == t
  {
    Counts(n);
    assert t.listed - ToSet([]) == t.listed;
  }

  lemma Returns(s: State, w: Write)
    requires InWrite(s, w.target, w.ops, w.session) && |w.results| == |w.ops| == |w.receipt.steps| && StoreFits(s)
    requires w.results[|w.ops| - 1].error.None? && w.receipt.steps[|w.ops| - 1].Some? && |w.ops| <= MAX_HISTORY
    ensures WrittenOut(WriteReturned(s, w.target, Numbers(0, |w.ops|), w.results, Some(w)), w)
  {
    hide Finished, Completed, Pruned, InWrite;
    var n := |w.ops|;
    var mid := Finished(s, w.target, Numbers(0, n), w.results, Some(w));
    Settles(s, w);
    Grants1(mid, w);
    NothingPruned(Completed(mid, w.target, Numbers(0, n), Some(w.receipt)), n);
    assert n - 1 in Numbers(0, n);
  }

  /** A write that carries single submissions to a Tonie, the last one with a recipe. */
  ghost predicate Carriable(w: Write) {
    && Happened(w) && w.ops != [] && |w.ops| <= MAX_HISTORY && Submittable(w.ops) && w.target != ""
    && |w.receipt.steps| == |w.ops| && w.receipt.steps[|w.ops| - 1].Some?
  }

  lemma {:induction false} WritesOut(run: seq<Event>, w: Write)
    requires Carriable(w) && Filled(Reached(run), w.target, w.ops, w.session, |w.ops|, |w.ops|)
    ensures WrittenOut(Reached(run + Writes(w)), w)
  {
    hide Reached, Holds, Next, Filled, Sane, InWrite, WrittenOut, Happened, Submittable;
    var key := w.target;
    var look, collect, done := WorkerLook(key, 0.0), WorkerCollect(key),
      WorkerDone(key, Called(w.session, w.retitle, w.cloud));
    assert run + Writes(w) == run + [look] + [collect] + [done];
    CollectedForWrite(run, w);
    var s := Reached(run + [look] + [collect]);
    HoldsParts(s);
    ReachedOneMore(run + [look] + [collect], done);
    WriteComesBack(s, w);
  }

  lemma {:induction false} CollectedForWrite(run: seq<Event>, w: Write)
    requires w.ops != [] && Filled(Reached(run), w.target, w.ops, w.session, |w.ops|, |w.ops|)
    ensures InWrite(Reached(run + [WorkerLook(w.target, 0.0)] + [WorkerCollect(w.target)]), w.target, w.ops, w.session)
  {
    hide Reached, Holds, Next, Filled, Sane, Looked, Collected, InWrite;
    var key, look, collect := w.target, WorkerLook(w.target, 0.0), WorkerCollect(w.target);
    HoldsParts(Reached(run));
    ReachedOneMore(run, look);
    NextIsLooked(Reached(run), key, 0.0);
    Looks(Reached(run), key, w.ops, w.session);
    HoldsParts(Reached(run + [look]));
    ReachedOneMore(run + [look], collect);
    NextIsCollected(Reached(run + [look]), key);
    Collects(Reached(run), key, w.ops, w.session);
  }

  lemma WriteComesBack(s: State, w: Write)
    requires Sane(s) && Carriable(w) && InWrite(s, w.target, w.ops, w.session)
    ensures WrittenOut(Next(s, WorkerDone(w.target, Called(w.session, w.retitle, w.cloud))), w)
  {
    hide Next, Sane, Applied, InWrite, WrittenOut, Happened, Submittable, WriteReturned, Numbers;
    NoRecipeForLoss(w, |w.ops| - 1);
    AppliesWrite(s, w);
    InWriteWrites(s, w);
    NextIsApplied(s, w.target, Called(w.session, w.retitle, w.cloud));
    Returns(s, w);
  }

  lemma InWriteWrites(s: State, w: Write)
    requires InWrite(s, w.target, w.ops, w.session)
    ensures w.target in s.workers && s.workers[w.target] == Writing(Numbers(0, |w.ops|))
  {
  }

  lemma WrittenStarts(t: State, w: Write)
    requires WrittenOut(t, w)
    ensures var n := |w.ops| - 1;
      StartsInverse(t, n, w.session) && Offered(t, n, w.session) == n && t.groups[n].receipt == Some(w.receipt)
  {
    hide Numbers;
    var n := |w.ops| - 1;
    assert t.latest[0] == n && Lookup(t.groups, t.latest, w.target) == Some(n);
  }

  /** Whatever the cloud answered: a confirmed write of single submissions, the last one with a recipe, comes about in a
      run from the empty queue, after which the undo of the last submission can start. */
  lemma WriteIsReachable(w: Write)
    requires Carriable(w)
    ensures WrittenOut(Reached(RunOf(w)), w)
    ensures var s, n := Reached(RunOf(w)), |w.ops| - 1;
      StartsInverse(s, n, w.session) && Offered(s, n, w.session) == n && s.groups[n].receipt == Some(w.receipt)
  {
    hide Reached, Holds, Filled, WrittenOut, Happened, Submissions, Transfers, Writes, StartsInverse, Offered;
    var run := Submissions(w.target, w.ops, w.session) + Transfers(w.ops, |w.ops|);
    AllSent(w.target, w.ops, w.session, |w.ops|);
    WritesOut(run, w);
    WrittenStarts(Reached(RunOf(w)), w);
  }

  // ---- One rename ----

  const KEY := "tonie"
  const ROW := Chapter("c", "Old", "f", 1.0, "file", Idle, None)
  const RENAMED := Chapter("c", "New", "f", 1.0, "file", Idle, None)
  const RENAME := Rename(Target("c", None, None), "New")
  const CLOUD := Cloud(Some(Snapshot([ROW], 99.0, 100.0, 10.0)), Some([RENAMED]),
      [Some(Snapshot([RENAMED], 99.0, 100.0, 10.0))])
  const STEPS := [Some(SetTitle("c", "Old"))]
  const RECEIPT := UndoReceipt(0, KEY, Writable([RENAMED]), STEPS, {})

  lemma Renames(retitle: TitleRule, rules: Rules)
    requires retitle("Old", "New") == Some("New") && rules.retitle == retitle
    ensures AfterOne(rules, Draft([ROW], {}), RENAME, 0) == Draft([RENAMED], {})
      && ErrorOf(rules, Draft([ROW], {}), RENAME, 0).None?
  {
    assert IsOnly([ROW], "c", 0);
    assert TargetRow([ROW], RENAME.target) == Success(0);
    assert [ROW][0 := RENAMED] == [RENAMED];
  }

  lemma PlanRenames(retitle: TitleRule)
    requires retitle("Old", "New") == Some("New")
    ensures SnapshotPlan(retitle, CLOUD.before.value, [RENAME]) == Plan(Draft([RENAMED], {}), [None])
  {
    hide AfterOne, ErrorOf;
    var s := CLOUD.before.value;
    var rules := BatchRules(retitle, s.chapters, Capacity(s), Finite(s.maxChapters));
    Renames(retitle, rules);
    assert [RENAME][1..] == [];
    assert PlanFrom(rules, Draft([RENAMED], {}), [], 1) == Plan(Draft([RENAMED], {}), []);
  }

  lemma RenameIsRecorded(retitle: TitleRule)
    ensures RecordFrom(retitle, AssignedIds([RENAME], [OpResult(None, None)]), [ROW], [RENAME], [OpResult(None, None)])
      == Success(STEPS)
  {
    var names := AssignedIds([RENAME], [OpResult(None, None)]);
    assert names == map[] by { NoIdsNoMap([RENAME], [OpResult(None, None)]); }
    assert IsOnly([ROW], "c", 0);
    NamedIsTarget([ROW], RENAME.target);
    assert UndoSteps.Recorded(names, [ROW], RENAME, OpResult(None, None)) == Success(Some(SetTitle("c", "Old")));
    RecordSingle(retitle, names, [ROW], RENAME, OpResult(None, None));
  }

  lemma RenameIsReadBack()
    ensures ReadBack(CLOUD.polls, Writable([RENAMED]), {}, READBACK_ATTEMPTS) == CLOUD.polls[0]
  {
    assert ValidRead(CLOUD.polls[0]);
    MatchesIsEquivalence(Writable([RENAMED]), Writable([RENAMED]), Writable([RENAMED]), {}, {});
  }

  lemma RenameIsWritten(retitle: TitleRule)
    requires retitle("Old", "New") == Some("New")
    ensures ApplyOutcome(0, KEY, retitle, [RENAME], CLOUD) == Written([OpResult(None, None)], RECEIPT)
  {
    hide PlanFrom, RecordFrom, ReadBack, AssignedIds;
    PlanRenames(retitle);
    RenameIsRecorded(retitle);
    RenameIsReadBack();
    assert "Old"[0] != "New"[0];
    assert Writable([RENAMED])[0] != Writable([ROW])[0];
    assert ResultsOf([None]) == [OpResult(None, None)];
    assert ProcessingIds([ROW]) == {};
    hide Writable, ResultsOf, ProcessingIds;
  }

  function RenameWrite(retitle: TitleRule): Write {
    Write(0, KEY, retitle, [RENAME], CLOUD, [OpResult(None, None)], RECEIPT)
  }

  lemma RenameIsCarriable(retitle: TitleRule)
    requires retitle("Old", "New") == Some("New")
    ensures Carriable(RenameWrite(retitle))
  {
    hide ApplyOutcome;
    RenameIsWritten(retitle);
    assert [RENAME][0] == RENAME;
  }

  /** A submission can obtain a receipt, and its undo can then start: the promises about receipts are not empty. */
  lemma UndoIsReachable(retitle: TitleRule)
    requires retitle("Old", "New") == Some("New")
    ensures StartsInverse(Reached(RunOf(RenameWrite(retitle))), 0, 0)
    ensures WrittenOut(Reached(RunOf(RenameWrite(retitle))), RenameWrite(retitle))
  {
    hide Reached, Holds, RunOf, StartsInverse, Offered, WrittenOut, Carriable;
    RenameIsCarriable(retitle);
    WriteIsReachable(RenameWrite(retitle));
  }

  // ---- A write beside an inverse ----

  lemma InverseBegins(s: State, w: Write)
    requires Sane(s) && WrittenOut(s, w) && StartsInverse(s, |w.ops| - 1, w.session)
    ensures var t := Next(s, UndoBegin(|w.ops| - 1, w.session));
      |t.actions| == |w.ops| && t.closed == {} && t.runs == [UndoRun(w.target, |w.ops| - 1, Some(w.receipt), Remote)]
  {
    hide Next, Sane, CanTake, Took;
    NextUndoEvents(s, UndoBegin(|w.ops| - 1, w.session));
    TookFirst(s, w);
  }

  lemma TookFirst(s: State, w: Write)
    requires StoreFits(s) && WrittenOut(s, w) && CanTake(s, |w.ops| - 1, w.session)
    ensures var t := Took(s, |w.ops| - 1, w.session);
      |t.actions| == |w.ops| && t.closed == {} && t.runs == [UndoRun(w.target, |w.ops| - 1, Some(w.receipt), Remote)]
  {
    hide Numbers;
    assert s.latest[0] == |w.ops| - 1 && Lookup(s.groups, s.latest, w.target) == Some(|w.ops| - 1);
  }

  /** From nothing to a write in flight beside a running inverse: the rename is undone; while its inverse runs, a delete
      is queued and undone at once, and the next rename is written. */
  lemma OverlapIsReachable(retitle: TitleRule)
    requires retitle("Old", "New") == Some("New")
    ensures Beside(Reached(RunOf(RenameWrite(retitle)) + [UndoBegin(0, 0)] + DeleteUndone(KEY, RENAME.target, 0, 1, 1)
                           + EditWritten(KEY, RENAME, 0)), 0, KEY)
  {
    hide Reached, Holds, Next, Sane, StartsInverse, WrittenOut, EditWritten, DeleteUndone, Beside, RunOf;
    var run := RunOf(RenameWrite(retitle));
    UndoIsReachable(retitle);
    HoldsParts(Reached(run));
    ReachedOneMore(run, UndoBegin(0, 0));
    InverseBegins(Reached(run), RenameWrite(retitle));
    WriteBesideInverse(run + [UndoBegin(0, 0)], 0, RENAME.target, RENAME, 0);
  }

  // ---- Undo that goes wrong ----

  /** What undoing the last op of a write does to a list that still matches and that its recipe changes. */
  lemma LastIsPatched(w: Write, later: UndoCloud, list: seq<Chapter>)
    requires Carriable(w) && StillMatches(w, later.before) && Writable(list) != Writable(later.before.value.chapters)
    requires ApplySteps(later.before.value.chapters, Backwards(w.receipt.steps[|w.ops| - 1..])) == Success(list)
    ensures var r := UndoResult(w.session, w.target, w.receipt, [|w.ops| - 1], later); r.UndoPatched? && r.list == list
  {
    hide ApplyOutcome, ReadBack, RecordFrom, Matches, Writable, ApplySteps, Backwards, Submittable;
    WriteReports(w);
    ChosenTail(w.receipt.steps, [|w.ops| - 1], |w.ops| - 1);
  }

  /** The undo of the submission that the run of `w` ends with. */
  ghost function UndoAfter(w: Write, later: UndoCloud): UndoOutcome
    requires Carriable(w)
  {
    UndoResult(w.session, w.target, w.receipt, [|w.ops| - 1], later)
  }

  /** `undo`, called for this action, comes to this. */
  ghost predicate Undoes(s: State, n: nat, session: Session, later: UndoCloud, r: UndoOutcome) {
    && StartsInverse(s, n, session) && Offered(s, n, session) < |s.groups|
    && var group := s.groups[Offered(s, n, session)];
       && (forall i :: i in group.indices ==> i < |group.receipt.value.steps|)
       && r == UndoResult(session, group.key, group.receipt.value, group.indices, later)
  }

  lemma UndoAfterIs(w: Write, later: UndoCloud)
    requires Carriable(w)
    ensures Undoes(Reached(RunOf(w)), |w.ops| - 1, w.session, later, UndoAfter(w, later))
  {
    hide Reached, Holds, RunOf, UndoResult, Happened, Submittable, Offered, StartsInverse;
    WriteIsReachable(w);
  }

  lemma CrossedIsCarriable(retitle: TitleRule)
    ensures Carriable(Crossed(retitle))
  {
    hide ApplyOutcome;
    CrossedHappens(retitle);
  }

  /** The cloud that gives the second upload the first one's staging id, in a run from the empty queue: the undo of the
      second upload starts, and leaves the second upload alone on the Tonie. */
  lemma CrossTalkIsReachable(retitle: TitleRule, accepted: bool, polls: seq<Read>)
    ensures var w, later := Crossed(retitle), UndoCloud(Some(SHOWN), accepted, polls);
      && Carriable(w) && Undoes(Reached(RunOf(w)), 1, w.session, later, UndoAfter(w, later)) && !NoCrossTalk(w, 1)
      && StillMatches(w, later.before) && !UndoneAs(w, 1, UndoAfter(w, later), later.before)
      && UndoAfter(w, later).UndoPatched? && UndoAfter(w, later).list == [REPLY[1]]
  {
    hide Reached, Holds, RunOf, Undoes, Happened, NoCrossTalk, Matches, TailShown, ApplySteps,
         UndoResult, Backwards, Submittable, Writable;
    var w, later := Crossed(retitle), UndoCloud(Some(SHOWN), accepted, polls);
    CrossedIsCarriable(retitle);
    UndoAfterIs(w, later);
    CrossTalkRemovesTheWrongChapter(retitle);
    ShownIsValid();
    assert |Writable([REPLY[1]])| != |Writable(REPLY)|;
    LastIsPatched(w, later, [REPLY[1]]);
    LastIndex(w, 1);
    ShownIsUndone(w, [1], 1, later);
  }

  lemma LastIndex(w: Write, n: nat)
    requires n + 1 == |w.receipt.steps| && w.receipt.steps[n].Some?
    ensures IsTail([n], n, |w.receipt.steps|) && HasRecipes(w.receipt.steps, n)
  {
  }

  lemma DoubledIsCarriable(retitle: TitleRule)
    ensures Carriable(Doubled(retitle))
  {
    hide ApplyOutcome;
    DoubledHappens(retitle);
  }

  /** The cloud that files two uploads under one staging id, in a run from the empty queue: the undo of the move after
      them starts, and puts the chapter between the uploads. */
  lemma RepeatedIdIsReachable(retitle: TitleRule, accepted: bool, polls: seq<Read>)
    ensures var w, later := Doubled(retitle), UndoCloud(Some(ALL_THREE), accepted, polls);
      && Carriable(w) && Undoes(Reached(RunOf(w)), 2, w.session, later, UndoAfter(w, later)) && OnlyEdits(w, 2)
        && !Unrepeated(w)
      && StillMatches(w, later.before) && !UndoneAs(w, 2, UndoAfter(w, later), later.before)
      && UndoAfter(w, later).UndoPatched? && UndoAfter(w, later).list == [P0, C, P1]
  {
    hide Reached, Holds, RunOf, Undoes, Happened, NoCrossTalk, Matches, TailShown, ApplySteps,
         UndoResult, Backwards, Submittable, Writable, Unrepeated, OnlyEdits, Shows;
    var w, later := Doubled(retitle), UndoCloud(Some(ALL_THREE), accepted, polls);
    DoubledIsCarriable(retitle);
    UndoAfterIs(w, later);
    RepeatedIdMisplacesTheMove(retitle);
    TwiceIsConfirmed();
    RowsDiffer();
    LastIsPatched(w, later, [P0, C, P1]);
    LastIndex(w, 2);
    ShownIsUndone(w, [2], 2, later);
  }

  lemma RowsDiffer()
    ensures Writable([P0, C, P1]) != Writable([P0, P1, C])
  {
    LettersDiffer();
    assert Writable([P0, C, P1])[1] != Writable([P0, P1, C])[1];
  }
}
