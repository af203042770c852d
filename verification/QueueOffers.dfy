/** What can be undone, by whom and until when. */
module QueueOffers {
  import opened Lists
  import opened CloudWrite
  import opened Queue
  import opened QueueInvariants
  import opened QueueSteps
  import opened QueueRuns
  import opened QueueStatus
  import opened QueueCapabilities
  import opened QueueCounterexamples

  /** The submission of the action has a live capability that has not run out, belongs to this open session, and is
      either still deferred or has a receipt. */
  ghost predicate MayUndo(s: State, n: nat, session: Session) {
    && n in s.listed && n < |s.actions| && s.actions[n].group < |s.groups|
    && var group := s.groups[s.actions[n].group];
       && group.active && s.now < group.deadline && group.owner == session && session !in s.closed
       && (group.pending || group.receipt.Some?)
  }

  // ---- Deferred submissions ----

  ghost predicate Open(s: State, g: nat) {
    g < |s.groups| && s.groups[g].active && s.groups[g].pending && s.now < s.groups[g].deadline
  }

  ghost predicate QueuedAction(s: State, n: nat) {
    n < |s.actions| && s.actions[n].status == Queued
  }

  /** As long as a deferred submission can be undone, all of it is still queued. */
  ghost predicate StillQueued(s: State) {
    forall g: nat, n: nat :: Open(s, g) && n in s.groups[g].actions ==> QueuedAction(s, n)
  }

  /** Whatever takes an action of such a submission out of the queue also ends the capability. */
  lemma LeavingEnds(s: State, e: Event, g: nat, n: nat, status: Status)
    requires Shape(s) && Store(s) && StoreFits(s) && Registry(s) && Deferral(s) && Sane(s)
    requires Open(s, g) && n in s.groups[g].actions && QueuedAction(s, n)
    requires Causes(s, e, n, status) && Descends(Queued, status) && LivesOn(s, Next(s, e), e, g)
    ensures g < |Next(s, e).groups| && !Next(s, e).groups[g].active
  {
    hide Next, Lookup, Sane, Store, Newer, Stays;
    assert Owned(s, g, n);
    if s.groups[g].pending { assert DueAtDeadline(s, g, n); }
    if e.UndoBegin? { OfferedIsOwn(s, e.action, e.session); MemberKey(s, g, n); }
  }

  lemma StaysQueued(s: State, e: Event, g: nat, n: nat)
    requires Inv(s) && Sane(s) && StillQueued(s) && g < |s.groups|
    requires Open(Next(s, e), g) && n in Next(s, e).groups[g].actions
    ensures QueuedAction(Next(s, e), n)
  {
    hide Next, Shape, Store, Registry, Workers, Deferral, Runs, Quiet, Sane, Causes, LivesOn;
    var t := Next(s, e);
    NextGroupsAge(s, e);
    ClockGrows(s, e);
    NextSteps(s, e);
    SaneParts(s);
    assert Open(s, g) && QueuedAction(s, n);
    assert ActionStep(s.actions[n], t.actions[n]);
    if t.actions[n].status != Queued {
      StepCauses(s, e, n, t.actions[n].status);
      StepLives(s, e, g);
      LeavingEnds(s, e, g, n, t.actions[n].status);
    }
  }

  lemma NewIsQueued(s: State, e: Event, n: nat)
    requires Sane(s) && IsSubmission(e) && Next(s, e) != s
    requires |Next(s, e).groups| > |s.groups| && n in Next(s, e).groups[|s.groups|].actions
    ensures QueuedAction(Next(s, e), n)
  {
    hide Next, Sane;
    SubmissionAppends(s, e);
  }

  lemma NextStillQueued(s: State, e: Event)
    requires Inv(s) && Sane(s) && StillQueued(s)
    ensures StillQueued(Next(s, e))
  {
    hide Next, Inv, Sane, QueuedAction;
    var t := Next(s, e);
    NewGroups(s, e);
    forall g: nat, n: nat | Open(t, g) && n in t.groups[g].actions ensures QueuedAction(t, n) {
      if g < |s.groups| { StaysQueued(s, e, g, n); } else { NewIsQueued(s, e, n); }
    }
  }

  lemma NewGroups(s: State, e: Event)
    requires Sane(s)
    ensures |Next(s, e).groups| <= |s.groups| + (if IsSubmission(e) && Next(s, e) != s then 1 else 0)
  {
    hide Next, Sane;
    if IsSubmission(e) {
      if Next(s, e) != s { SubmissionAppends(s, e); }
    } else {
      NextSizes(s, e);
    }
  }

  lemma {:induction false} RunsKeepQueued(events: seq<Event>)
    ensures StillQueued(Reached(events))
    decreases |events|
  {
    hide Next, Holds, StillQueued, Inv, Sane;
    if events == [] {
      NothingOpen();
    } else {
      var n := |events| - 1;
      RunsKeepQueued(events[..n]);
      HoldsParts(Reached(events[..n]));
      NextStillQueued(Reached(events[..n]), events[n]);
    }
  }

  lemma NothingOpen()
    ensures StillQueued(INIT) && DelaysAscend(INIT)
  {
  }

  // ---- Who can undo ----

  /** A live capability is what the store finds; and a deferred one that has not run out is never too late. */
  lemma CanTakeIff(s: State, n: nat, session: Session)
    requires Shape(s) && Store(s) && StoreFits(s) && Registry(s) && StillQueued(s)
    ensures CanTake(s, n, session) <==> MayUndo(s, n, session)
    ensures MayUndo(s, n, session) ==> Lookup(s.groups, s.latest, s.actions[n].key) == Some(s.actions[n].group)
  {
    hide Lookup, Store, Registry;
    if CanTake(s, n, session) {
      OfferedIsOwn(s, n, session);
      MemberKey(s, Offered(s, n, session), n);
    }
    if MayUndo(s, n, session) {
      LookupIs(s, s.actions[n].group);
      var g := s.actions[n].group;
      assert Open(s, g) ==> forall m :: m in s.groups[g].actions ==> QueuedAction(s, m);
    }
  }

  /** Over every run, an `undo` call takes the capability exactly when it may: it consumes it, blocks the Tonie, and
      runs the inverse if there is a receipt. Otherwise it starts nothing. */
  lemma {:induction false} UndoTakesIff(events: seq<Event>, n: nat, session: Session)
    ensures var s, t := Reached(events), Reached(events + [UndoBegin(n, session)]);
      if MayUndo(s, n, session) then
        var g := s.actions[n].group;
        && t.runs == s.runs + [UndoRun(s.actions[n].key, g, s.groups[g].receipt,
                                       if s.groups[g].receipt.Some? then Remote else Recorded)]
        && t.undoing == s.undoing + {s.actions[n].key} && g < |t.groups| && !t.groups[g].active
      else t.runs == s.runs && t.undoing == s.undoing
  {
    hide Reached, Holds, Next, Sane, Shape, Store, Registry, StillQueued, CanTake, AfterRefusal;
    var s := Reached(events);
    ReachedOneMore(events, UndoBegin(n, session));
    HoldsParts(s);
    SaneParts(s);
    RunsKeepQueued(events);
    NextUndoEvents(s, UndoBegin(n, session));
    CanTakeIff(s, n, session);
    if MayUndo(s, n, session) { TookIs(s, n, session); } else { RefusedRuns(s, n); }
  }

  lemma TookIs(s: State, n: nat, session: Session)
    requires StoreFits(s) && CanTake(s, n, session) && s.actions[n].group < |s.groups|
    requires Lookup(s.groups, s.latest, s.actions[n].key) == Some(s.actions[n].group)
    ensures var t, g := Took(s, n, session), s.actions[n].group;
      && t.runs == s.runs + [UndoRun(s.actions[n].key, g, s.groups[g].receipt,
                                     if s.groups[g].receipt.Some? then Remote else Recorded)]
      && t.undoing == s.undoing + {s.actions[n].key} && g < |t.groups| && !t.groups[g].active
  {
    hide Lookup;
  }

  // ---- Undoable until due ----

  /** Delays end in the order of submission. */
  ghost predicate DelaysAscend(s: State) {
    && (forall m, n :: 0 <= m <= n < |s.actions| && s.actions[n].readyAt > 0.0 ==>
          s.actions[m].readyAt <= s.actions[n].readyAt)
    && (forall g :: 0 <= g < |s.groups| && s.groups[g].pending ==> s.groups[g].deadline > 0.0)
  }

  lemma AppendedAscend(s: State, t: State, e: Event)
    requires IsSubmission(e) && Appends(s, t, e) && GroupsAge(s, t) && DelaysAscend(s) && DueAfter(s, DELETE_DELAY)
    ensures DelaysAscend(t)
  {
    assert forall n :: 0 <= n < |s.actions| ==> t.actions[n] == t.actions[..|s.actions|][n];
  }

  lemma SteppedAscend(s: State, t: State)
    requires DelaysAscend(s) && ActionSteps(s, t) && |t.actions| == |s.actions|
    requires GroupsAge(s, t) && |t.groups| == |s.groups|
    ensures DelaysAscend(t)
  {
  }

  lemma NextDelaysAscend(s: State, e: Event)
    requires Registry(s) && Workers(s) && Runs(s) && Sane(s) && DelaysAscend(s) && DueAfter(s, DELETE_DELAY)
    ensures DelaysAscend(Next(s, e))
  {
    hide Next, Registry, Workers, Runs, Sane, DelaysAscend, DueAfter, ActionSteps, Appends, GroupsAge;
    NextGroupsAge(s, e);
    if IsSubmission(e) {
      if Next(s, e) != s {
        SubmissionAppends(s, e);
        AppendedAscend(s, Next(s, e), e);
      }
    } else {
      NextSteps(s, e);
      NextSizes(s, e);
      SteppedAscend(s, Next(s, e));
    }
  }

  lemma {:induction false} RunsKeepAscending(events: seq<Event>)
    ensures DelaysAscend(Reached(events))
    decreases |events|
  {
    hide Next, Holds, DelaysAscend, DueAfter, Sane;
    if events == [] {
      NothingOpen();
    } else {
      var n := |events| - 1;
      RunsKeepAscending(events[..n]);
      DeferralIsBounded(events[..n]);
      HoldsParts(Reached(events[..n]));
      NextDelaysAscend(Reached(events[..n]), events[n]);
    }
  }

  /** In every reachable state, a deferred action that is still queued on a Tonie without a block is either undoable or
      due, and never both: exactly until its deadline its session can undo it, and exactly from then on it can enter a
      write. */
  lemma {:induction false} UndoableUntilDue(events: seq<Event>, g: nat, m: nat)
    requires g < |Reached(events).groups| && m in Reached(events).groups[g].actions
    requires Reached(events).groups[g].active && Reached(events).groups[g].pending
    requires QueuedAction(Reached(events), m) && Reached(events).groups[g].owner !in Reached(events).closed
    requires Reached(events).groups[g].key !in Reached(events).undoing
    ensures var s := Reached(events);
      && (MayUndo(s, m, s.groups[g].owner) <==> s.now < s.groups[g].deadline)
      && (Batchable(s, s.groups[g].key, m) <==> s.groups[g].deadline <= s.now)
  {
    hide Reached, Holds, DelaysAscend, MayUndo, Batchable;
    var s := Reached(events);
    HoldsParts(s);
    RunsKeepAscending(events);
    DeferredEither(s, g, m);
  }

  lemma DeferredEither(s: State, g: nat, m: nat)
    requires Shape(s) && Registry(s) && Deferral(s) && DelaysAscend(s)
    requires g < |s.groups| && m in s.groups[g].actions && s.groups[g].active && s.groups[g].pending
    requires QueuedAction(s, m) && s.groups[g].owner !in s.closed && s.groups[g].key !in s.undoing
    ensures MayUndo(s, m, s.groups[g].owner) <==> s.now < s.groups[g].deadline
    ensures Batchable(s, s.groups[g].key, m) <==> s.groups[g].deadline <= s.now
  {
    MemberKey(s, g, m);
    assert DueAtDeadline(s, g, m) && !s.actions[m].IsUpload();
    if s.groups[g].deadline <= s.now {
      assert forall k :: 0 <= k <= m ==> s.actions[k].readyAt <= s.now;
    }
  }

  // ---- Closed sessions ----

  lemma SubmissionClosed(s: State, e: Event)
    requires Sane(s) && IsSubmission(e)
    ensures Next(s, e).closed == s.closed
  {
    hide Next, Sane, Kept, Newest, NewActions, Numbers, InvalidateAll, EnsureWorker, DefersDeletes, ToSet;
    if Next(s, e) != s { SubmissionRegisters(s, e); }
  }

  lemma OtherClosed(s: State, e: Event)
    requires Sane(s) && !IsSubmission(e) && !e.WorkerDone?
    ensures Next(s, e).closed == s.closed + (if e.Close? then {e.session} else {})
  {
    hide ReadyBatch, DeadlineBelow, ResetBelow, NotifyAll, InvalidateAll, SettleAll, SetAll, Sane, Lookup, CanTake,
         InverseDone;
  }

  lemma NextClosed(s: State, e: Event)
    requires Sane(s) && StoreFits(s)
    ensures Next(s, e).closed == s.closed + (if e.Close? then {e.session} else {})
  {
    hide Next, Sane, EndsAs, EndsFor;
    if IsSubmission(e) {
      SubmissionClosed(s, e);
    } else if e.WorkerDone? {
      if e.key in s.workers && s.workers[e.key].Writing? {
        SaneParts(s);
        var ending := DoneEnds(s, e.key, e.call);
        EndingTouches(s, e.key, s.workers[e.key].batch, ending, Next(s, e));
      } else {
        DoneIgnored(s, e.key, e.call);
      }
    } else {
      OtherClosed(s, e);
    }
  }

  /** A session is closed exactly when it was closed in the run, and then for good. */
  lemma {:induction false} ClosedIff(events: seq<Event>, session: Session)
    ensures session in Reached(events).closed <==> Close(session) in events
    decreases |events|
  {
    hide Next, Holds, Sane;
    if events != [] {
      var n := |events| - 1;
      ClosedIff(events[..n], session);
      assert events == events[..n] + [events[n]];
      HoldsParts(Reached(events[..n]));
      SaneParts(Reached(events[..n]));
      NextClosed(Reached(events[..n]), events[n]);
    }
  }
}
