/** Nothing is left behind: uploads on their way to a write, what a reset ends, and what the history forgets. */
module QueueTidy {
  import opened Lists
  import opened CloudLaws
  import opened Queue
  import opened QueueInvariants
  import opened QueueSteps
  import opened QueueRuns
  import opened QueueStatus

  // ---- Uploads on their way ----

  /** A queued upload has its transfer still to come, and one that is transferring has it under way. */
  ghost predicate Sending(s: State) {
    && (forall n :: 0 <= n < |s.actions| && s.actions[n].status.Transferring? ==> n in s.transit)
    && (forall n :: 0 <= n < |s.actions| && s.actions[n].status.Queued? && s.actions[n].IsUpload() ==> n in s.unsent)
  }

  lemma BeginSends(s: State, m: nat)
    requires Registry(s) && Sending(s)
    ensures Sending(TransferBegun(s, m))
  {
  }

  lemma EndSends(s: State, m: nat, prepared: Prepared)
    requires Registry(s) && Sending(s)
    ensures Sending(TransferEnded(s, m, prepared))
  {
  }

  lemma SubmissionSets(s: State, e: Event)
    requires StoreFits(s) && Sane(s) && IsSubmission(e) && Next(s, e) != s
    ensures Next(s, e).transit == s.transit
    ensures Next(s, e).unsent == s.unsent + (if e.SubmitUpload? then {|s.actions|} else {})
  {
    hide Kept, Newest, NewActions, Numbers, InvalidateAll, EnsureWorker, DefersDeletes, ToSet, Sane;
  }

  lemma SubmissionSends(s: State, e: Event)
    requires Sane(s) && IsSubmission(e) && Sending(s)
    ensures Sending(Next(s, e))
  {
    hide Next, Sane;
    if Next(s, e) != s {
      var t := Next(s, e);
      SubmissionAppends(s, e);
      SaneParts(s);
      SubmissionSets(s, e);
      if e.SubmitUpload? { OneUploadOnly(e, |s.actions|); }
      assert forall n :: 0 <= n < |s.actions| ==> t.actions[..|s.actions|][n] == t.actions[n];
    }
  }

  lemma EndingSets(s: State, key: Key, batch: seq<nat>, ending: Ending, t: State)
    requires StoreFits(s) && ValidNumbers(s, batch) && EndsAs(s, key, batch, ending, t)
    ensures t.unsent == s.unsent && t.transit == s.transit
  {
    hide Happened, OpsOf, FinishedBelow, Lookup, IndexOf, HasPending, InvalidateAll, SettleAll, FinishAll;
  }

  lemma UndoSets(s: State, e: Event)
    requires Sane(s) && (e.UndoBegin? || e.UndoRecord? || e.UndoFinish?)
    ensures Next(s, e).unsent == s.unsent && Next(s, e).transit == s.transit
  {
    hide Next, CanTake, InverseDone, Lookup;
    NextUndoEvents(s, e);
  }

  lemma RestSets(s: State, e: Event)
    requires Sane(s) && !IsSubmission(e) && !e.TransferBegin? && !e.TransferEnd? && !e.WorkerDone?
    requires !(e.UndoBegin? || e.UndoRecord? || e.UndoFinish?)
    ensures Next(s, e).unsent == s.unsent && Next(s, e).transit == s.transit
  {
    hide ReadyBatch, DeadlineBelow, ResetBelow, NotifyAll, InvalidateAll, SettleAll, SetAll, Sane;
  }

  lemma SameSets(s: State, e: Event)
    requires Sane(s) && !IsSubmission(e) && !e.TransferBegin? && !e.TransferEnd?
    ensures Next(s, e).unsent == s.unsent && Next(s, e).transit == s.transit
  {
    hide Next, Sane, EndsAs, EndsFor;
    if e.WorkerDone? {
      SaneParts(s);
      if e.key in s.workers && s.workers[e.key].Writing? {
        var ending := DoneEnds(s, e.key, e.call);
        EndingSets(s, e.key, s.workers[e.key].batch, ending, Next(s, e));
      } else {
        DoneIgnored(s, e.key, e.call);
      }
    } else if e.UndoBegin? || e.UndoRecord? || e.UndoFinish? {
      UndoSets(s, e);
    } else {
      RestSets(s, e);
    }
  }

  /** Any other event leaves the two sets alone, and queues or transfers nothing. */
  lemma OthersSend(s: State, e: Event)
    requires Registry(s) && Workers(s) && Runs(s) && Sane(s) && Sending(s)
    requires !IsSubmission(e) && !e.TransferBegin? && !e.TransferEnd?
    ensures Sending(Next(s, e))
  {
    hide Next, Registry, Workers, Runs, Sane;
    var t := Next(s, e);
    NextSteps(s, e);
    SameSets(s, e);
    NextSameShape(s, e);
    forall n | 0 <= n < |s.actions|
      ensures t.actions[n].status.Transferring? ==> s.actions[n].status.Transferring?
      ensures t.actions[n].status.Queued? ==> s.actions[n].status.Queued?
      ensures t.actions[n].IsUpload() == s.actions[n].IsUpload()
    {
      assert ActionStep(s.actions[n], t.actions[n]);
      StepCauses(s, e, n, Transferring);
      StepCauses(s, e, n, Queued);
    }
  }

  lemma {:induction false} RunsKeepSending(events: seq<Event>)
    ensures Sending(Reached(events))
    decreases |events|
  {
    hide Next, Holds, Sending, Registry, Workers, Runs, Sane;
    if events == [] {
      NothingSends();
    } else {
      var head, e := events[..|events| - 1], events[|events| - 1];
      var s := Reached(head);
      RunsKeepSending(head);
      HoldsParts(s);
      NextIs(s, e);
      match e {
        case TransferBegin(m) => BeginSends(s, m);
        case TransferEnd(m, prepared) => EndSends(s, m, prepared);
        case Submit(_, _, _) => SubmissionSends(s, e);
        case SubmitUpload(_, _, _, _) => SubmissionSends(s, e);
        case _ => OthersSend(s, e);
      }
    }
  }

  lemma NothingSends()
    ensures Sending(INIT)
  {
  }

  /** Where an upload is: its transfer is still to come or under way, its bytes wait for a write, a write carries it, or
      it is settled. */
  ghost predicate OnItsWay(s: State, n: nat)
    requires n < |s.actions|
  {
    match s.actions[n].status
    case Queued => n in s.unsent
    case Transferring => n in s.transit
    case Ready => n !in s.transit && n in s.listed && s.actions[n].key in s.workers
    case Applying => InFlight(s, n)
    case _ => s.actions[n].finished
  }

  /** No upload gets stuck: in every reachable state each is where something still moves it on, or it is settled. */
  lemma {:induction false} UploadsAreOnTheirWay(events: seq<Event>, n: nat)
    requires n < |Reached(events).actions| && Reached(events).actions[n].IsUpload()
    ensures OnItsWay(Reached(events), n)
  {
    hide Reached, Holds, InFlight;
    RunsKeepSending(events);
    HoldsParts(Reached(events));
  }

  // ---- Reset ----

  /** A reset, in every reachable state: what a write carries goes on, everything else that waited is canceled, whatever
      was settled stays as it was, and no capability is left. */
  lemma {:induction false} ResetLeavesOnlyWrites(events: seq<Event>)
    ensures var s, t := Reached(events), Reached(events + [Reset]);
      && |t.actions| == |s.actions| && t.latest == []
      && (forall g :: 0 <= g < |t.groups| ==> !t.groups[g].active && t.groups[g].receipt.None?)
      && forall n :: 0 <= n < |s.actions| ==>
           t.actions[n] == if s.actions[n].status.Waiting() && s.actions[n].status != Applying
                           then Settled(s.actions[n], Canceled) else s.actions[n]
  {
    hide Reached, Holds, Next;
    var s := Reached(events);
    ReachedOneMore(events, Reset);
    HoldsParts(s);
    NextIs(s, Reset);
    ResetIs(s);
  }

  lemma ResetIs(s: State)
    requires Registry(s) && Store(s)
    ensures var t := WasReset(s);
      && |t.actions| == |s.actions| && t.latest == []
      && (forall g :: 0 <= g < |t.groups| ==> !t.groups[g].active && t.groups[g].receipt.None?)
      && forall n :: 0 <= n < |s.actions| ==>
           t.actions[n] == if s.actions[n].status.Waiting() && s.actions[n].status != Applying
                           then Settled(s.actions[n], Canceled) else s.actions[n]
  {
    assert forall n: nat :: n in ResetBelow(s, |s.actions|) <==> n < |s.actions| && Unstarted(s, n);
    hide ResetBelow;
  }

  // ---- History ----

  /** What pruning forgets: only settled actions, each older than every settled one that stays, and only as many as the
      limit of 300 asks for. */
  ghost predicate ForgetsOldest(s: State, t: State) {
    && t.listed <= s.listed
    && (forall x :: x in s.listed - t.listed ==> x < |t.actions| && !t.actions[x].status.Waiting())
    && (forall x, y :: x in s.listed - t.listed && y in t.listed && y < |t.actions| ==>
          t.actions[y].status.Waiting() || x < y)
    && (t.listed != s.listed ==> |t.listed| >= 300)
    && (|t.listed| > 300 ==> forall y :: y in t.listed && y < |t.actions| ==> t.actions[y].status.Waiting())
  }

  lemma {:induction false} FinishedAscends(s: State, bound: nat)
    ensures Ascends(FinishedBelow(s, bound))
  {
    if bound > 0 {
      FinishedAscends(s, bound - 1);
      var r := FinishedBelow(s, bound - 1);
      assert forall i :: 0 <= i < |r| ==> r[i] in r;
    }
  }

  lemma {:induction false} AscendingCount(xs: seq<nat>)
    requires Ascends(xs)
    ensures |ToSet(xs)| == |xs|
  {
    if xs == [] {
      assert ToSet(xs) == {};
    } else {
      var n := |xs| - 1;
      AscendingCount(xs[..n]);
      assert xs == xs[..n] + [xs[n]];
      assert ToSet(xs) == ToSet(xs[..n]) + {xs[n]};
      assert xs[n] !in xs[..n];
    }
  }

  lemma {:induction false} SurplusIsListed(s: State, gone: seq<nat>)
    requires gone == Surplus(|s.listed|, FinishedBelow(s, |s.actions|))
    ensures ToSet(gone) <= s.listed && |s.listed - ToSet(gone)| == |s.listed| - |gone|
  {
    hide FinishedBelow;
    FinishedAscends(s, |s.actions|);
    SurplusIsOldest(|s.listed|, FinishedBelow(s, |s.actions|));
    AscendingCount(gone);
  }

  lemma {:induction false} PrunedIs(s: State, gone: seq<nat>)
    requires gone == Surplus(|s.listed|, FinishedBelow(s, |s.actions|))
    ensures Pruned(s).actions == s.actions && |Pruned(s).listed| == |s.listed| - |gone|
    ensures Pruned(s).listed <= s.listed && forall x :: x in s.listed - Pruned(s).listed <==> x in gone
    ensures gone == [] ==> Pruned(s).listed == s.listed
  {
    hide FinishedBelow, Surplus;
    SurplusIsListed(s, gone);
    assert gone == [] ==> ToSet(gone) == {};
  }

  lemma PruneForgets(s: State)
    requires forall n :: n in s.listed ==> n < |s.actions|
    ensures ForgetsOldest(s, Pruned(s))
  {
    hide FinishedBelow, Surplus, Ascends, Pruned;
    var finished := FinishedBelow(s, |s.actions|);
    var gone := Surplus(|s.listed|, finished);
    FinishedAscends(s, |s.actions|);
    SurplusIsOldest(|s.listed|, finished);
    PrunedIs(s, gone);
  }

  lemma SurplusIsOldest(count: nat, finished: seq<nat>)
    requires Ascends(finished)
    ensures Ascends(Surplus(count, finished))
    ensures |Surplus(count, finished)| == if count <= 300 then 0 else if count - 300 <= |finished| then count - 300
                                          else |finished|
    ensures |Surplus(count, finished)| == |finished| ==> Surplus(count, finished) == finished
    ensures forall x, y :: x in Surplus(count, finished) && y in finished && y !in Surplus(count, finished) ==> x < y
  {
    var gone := Surplus(count, finished);
    assert forall k :: 0 <= k < |gone| ==> gone[k] == finished[k] && gone[k] in gone;
    forall x, y | x in gone && y in finished && y !in gone ensures x < y {
      var i :| 0 <= i < |gone| && gone[i] == x;
      var j :| 0 <= j < |finished| && finished[j] == y;
    }
  }

  lemma EndingForgets(s: State, key: Key, batch: seq<nat>, ending: Ending, t: State)
    requires StoreFits(s) && ValidNumbers(s, batch) && EndsAs(s, key, batch, ending, t) && Registry(s)
    ensures ForgetsOldest(s, t)
  {
    hide Happened, OpsOf, ForgetsOldest, Pruned, Lookup, IndexOf, HasPending, InvalidateAll, Granted;
    match ending {
      case Lost(blank) =>
        var u := s.(actions := SettleAll(s.actions, batch, Outcome(!blank)),
                    groups := InvalidateAll(s.groups, set n | n in batch :: s.actions[n].group),
                    workers := s.workers[key := Awake]);
        ListedPrunes(s, u);
      case Back(results, write) =>
        var u := Completed(Finished(s, key, batch, results, write), key, batch, ReceiptOf(write));
        ListedPrunes(s, u);
    }
  }

  lemma ListedPrunes(s: State, u: State)
    requires Registry(s) && u.listed == s.listed && |u.actions| == |s.actions|
    ensures ForgetsOldest(s, Pruned(u))
  {
    PruneForgets(u);
  }

  lemma SubmissionLists(s: State, e: Event)
    requires Sane(s) && IsSubmission(e) && Next(s, e) != s
    ensures forall n :: n in Next(s, e).listed <==> n in s.listed || |s.actions| <= n < |Next(s, e).actions|
  {
    hide Next, Kept, Newest, NewActions, InvalidateAll, EnsureWorker, DefersDeletes, Sane;
    SubmissionRegisters(s, e);
  }

  /** Over every run: only the end of a write forgets actions, the oldest settled ones beyond the limit; a submission
      lists its own, and nothing else changes what is listed. */
  lemma {:induction false} HistoryForgetsOldest(events: seq<Event>, e: Event)
    ensures var s, t := Reached(events), Reached(events + [e]);
      if e.WorkerDone? && e.key in s.workers && s.workers[e.key].Writing? then ForgetsOldest(s, t)
      else forall n :: n in t.listed <==> n in s.listed || |s.actions| <= n < |t.actions|
  {
    hide Reached, Holds, Next, ForgetsOldest, Registry, Sane, EndsAs, EndsFor;
    var s := Reached(events);
    ReachedOneMore(events, e);
    HoldsParts(s);
    SaneParts(s);
    if e.WorkerDone? {
      if e.key in s.workers && s.workers[e.key].Writing? {
        var ending := DoneEnds(s, e.key, e.call);
        EndingForgets(s, e.key, s.workers[e.key].batch, ending, Next(s, e));
      } else {
        DoneIgnored(s, e.key, e.call);
        ListedAreNumbers(s);
      }
    } else if IsSubmission(e) {
      if Next(s, e) != s { SubmissionLists(s, e); } else { ListedAreNumbers(s); }
    } else {
      ListedAreNumbers(s);
      NextListed(s, e);
    }
  }

  lemma ListedAreNumbers(s: State)
    requires Registry(s)
    ensures forall n :: n in s.listed ==> n < |s.actions|
  {
  }
}
