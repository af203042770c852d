/** The two interleavings the queue's guards miss: a deadline that passes while a worker goes to sleep, and an undo call
    that finishes while an inverse of the same Tonie runs. */
module QueueCounterexamples {
  import opened Lists
  import opened Planner
  import opened CloudWrite
  import opened Queue
  import opened QueueInvariants
  import opened QueueSteps
  import opened QueueWake
  import opened QueueOrder
  import opened QueueRuns
  import opened QueueOverlap

  // ---- One submission ----

  /** What one accepted single-edit submission adds. */
  ghost predicate Added(s: State, t: State, key: Key, op: Op, session: Session) {
    var n, g := |s.actions|, |s.groups|;
    var deadline := s.now + (if op.Delete? then DELETE_DELAY else UNDO_TTL);
    && |t.actions| == n + 1 && t.actions[..n] == s.actions
    && t.actions[n] == Action(key, op, Queued, false, g, session, if op.Delete? then deadline else 0.0)
    && |t.groups| == g + 1 && t.groups[g] == Group(key, [n], session, deadline, op.Delete?, true, None, [])
    && StoreFits(t) && t.latest != [] && t.latest[|t.latest| - 1] == g
    && (forall h :: h in t.latest && h != g ==> h < g && t.groups[h].key != key)
    && t.listed == s.listed + {n} && t.now == s.now && t.closed == s.closed && t.undoing == s.undoing
      && t.runs == s.runs
  }

  lemma SubmitRegisters(s: State, key: Key, op: Op, session: Session)
    requires Sane(s) && key != "" && session !in s.closed && IsEdit(op)
    ensures StoreFits(s)
    ensures var t := Registered(s, key, [op], session);
      Next(s, Submit(key, [op], session)) == t.(workers := NotifyAll(t.workers))
  {
    hide Registered;
    assert [op][0] == op;
  }

  lemma {:induction false} OneNumber(n: nat)
    ensures Numbers(n, 1) == [n] && ToSet([n]) == {n}
  {
    assert Numbers(n, 0) == [];
  }

  lemma OneDefers(op: Op)
    ensures DefersDeletes([op]) == op.Delete?
  {
    assert [op][0] == op;
  }

  lemma RegisteredAdds(s: State, key: Key, op: Op, session: Session)
    requires StoreFits(s)
    ensures Added(s, Registered(s, key, [op], session), key, op, session)
  {
    hide Kept, Newest, DefersDeletes, Numbers, ToSet;
    OneNumber(|s.actions|);
    OneDefers(op);
    var t := Registered(s, key, [op], session);
    assert t.actions[..|s.actions|] == s.actions;
  }

  lemma EditAdds(s: State, key: Key, op: Op, session: Session)
    requires Sane(s) && key != "" && session !in s.closed && IsEdit(op)
    ensures Added(s, Next(s, Submit(key, [op], session)), key, op, session)
  {
    hide Next, Sane, Registered;
    SubmitRegisters(s, key, op, session);
    RegisteredAdds(s, key, op, session);
  }

  // ---- Asleep beside due work ----

  /** The first action is due, and its worker sleeps without a timeout. */
  ghost predicate Stuck(s: State, key: Key) {
    Batchable(s, key, 0) && key in s.workers && s.workers[key] == Asleep(None)
  }

  /** Time alone does not help. */
  lemma StuckStays(s: State, e: Event, key: Key)
    requires Sane(s) && Stuck(s, key) && (e.Tick? || e.Wake?)
    ensures Stuck(Next(s, e), key)
  {
    hide Sane;
    assert Pending(Next(s, e), key, 0);
  }

  lemma {:induction false} StuckForGood(events: seq<Event>, key: Key, waiting: seq<Event>)
    requires Stuck(Reached(events), key)
    requires forall i :: 0 <= i < |waiting| ==> waiting[i].Tick? || waiting[i].Wake?
    ensures Stuck(Reached(events + waiting), key)
    decreases |waiting|
  {
    hide Reached, Stuck, Holds, Next;
    if waiting == [] {
      assert events + waiting == events;
    } else {
      var n := |waiting| - 1;
      StuckForGood(events, key, waiting[..n]);
      ReachedLast(events, waiting);
      HoldsParts(Reached(events + waiting[..n]));
      StuckStays(Reached(events + waiting[..n]), waiting[n], key);
    }
  }

  /** One delete was submitted at time zero, and its worker is awake. */
  ghost predicate OneDelete(s: State, key: Key, row: Target, session: Session) {
    && s.listed == {0} && s.undoing == {} && s.workers == map[key := Awake]
    && s.actions == [Action(key, Delete(row), Queued, false, 0, session, DELETE_DELAY)]
  }

  lemma FirstDelete(key: Key, row: Target, session: Session)
    requires key != "" && Sane(INIT)
    ensures var s := Next(INIT, Submit(key, [Delete(row)], session)); s.now == 0.0 && OneDelete(s, key, row, session)
  {
    hide Next, Sane, Registered;
    SaneStore(INIT);
    SubmitRegisters(INIT, key, Delete(row), session);
    RegisteredAdds(INIT, key, Delete(row), session);
    RegisteredWorkers(key, [Delete(row)], session);
  }

  lemma RegisteredWorkers(key: Key, ops: seq<Op>, session: Session)
    ensures StoreFits(INIT) && NotifyAll(Registered(INIT, key, ops, session).workers) == map[key := Awake]
  {
    hide Kept, Newest, DefersDeletes, NewActions, InvalidateAll, Numbers;
  }

  lemma LookTooLate(s: State, key: Key, row: Target, session: Session, lag: real)
    requires OneDelete(s, key, row, session) && s.now < DELETE_DELAY <= s.now + lag
    ensures Stuck(Looked(s, key, lag), key)
  {
    assert Pending(s, key, 0);
    assert !Batchable(s, key, 0);
    assert BatchBelow(s, key, 0) == [] && BatchBelow(s, key, 1) == [];
    var later := s.(now := s.now + lag);
    assert DeadlineBelow(later, key, 0).None? && DeadlineBelow(later, key, 1).None?;
    assert Batchable(Looked(s, key, lag), key, 0);
  }

  lemma TickFirst(s: State, t: real)
    requires Sane(s) && t >= 0.0
    ensures Next(s, Tick(t)) == s.(now := s.now + t)
  {
  }

  lemma FirstEvent(e: Event)
    ensures Sane(INIT) && Reached([e]) == Next(INIT, e)
  {
    hide Reached, Next, Holds, Sane;
    InitShape();
    assert [] + [e] == [e];
    ReachedNothing();
    ReachedOneMore([], e);
  }

  lemma {:induction false} ThenTick(events: seq<Event>, t: real)
    requires t >= 0.0
    ensures Reached(events + [Tick(t)]) == Reached(events).(now := Reached(events).now + t)
  {
    hide Reached, Next, Holds, Sane;
    HoldsParts(Reached(events));
    ReachedOneMore(events, Tick(t));
    TickFirst(Reached(events), t);
  }

  lemma DeleteThenTick(key: Key, row: Target, session: Session, t: real)
    requires key != "" && 0.0 <= t
    ensures var s := Reached([Submit(key, [Delete(row)], session), Tick(t)]);
      s.now == t && OneDelete(s, key, row, session)
  {
    hide Reached, Next, Holds, Sane, OneDelete;
    var submit := Submit(key, [Delete(row)], session);
    assert [submit] + [Tick(t)] == [submit, Tick(t)];
    FirstEvent(submit);
    FirstDelete(key, row, session);
    ThenTick([submit], t);
    LaterDelete(Reached([submit]), key, row, session, t);
  }

  lemma LaterDelete(s: State, key: Key, row: Target, session: Session, now: real)
    ensures OneDelete(s, key, row, session) ==> OneDelete(s.(now := now), key, row, session)
  {
  }

  /** A delete is queued; some time later the worker sees it still deferred, but its delay ends before the worker
      collects the deadlines. From then on the delete is due and the worker sleeps, however much time passes. */
  lemma {:induction false} MissedDeadline(key: Key, row: Target, session: Session, t: real, lag: real,
                                          waiting: seq<Event>)
    requires key != "" && 0.0 <= t < DELETE_DELAY <= t + lag
    requires forall i :: 0 <= i < |waiting| ==> waiting[i].Tick? || waiting[i].Wake?
    ensures Stuck(Reached([Submit(key, [Delete(row)], session), Tick(t), WorkerLook(key, lag)] + waiting), key)
  {
    hide Reached, Next, Stuck, Looked, Holds, Sane, OneDelete;
    var run, look := [Submit(key, [Delete(row)], session), Tick(t)], WorkerLook(key, lag);
    assert run + [look] == [Submit(key, [Delete(row)], session), Tick(t), look];
    DeleteThenTick(key, row, session, t);
    HoldsParts(Reached(run));
    ReachedOneMore(run, look);
    NextIsLooked(Reached(run), key, lag);
    LookTooLate(Reached(run), key, row, session, lag);
    StuckForGood(run + [look], key, waiting);
  }

  // ---- An inverse that is no longer guarded ----

  lemma AddedIsOffered(s: State, t: State, key: Key, op: Op, session: Session)
    requires Added(s, t, key, op, session) && op.Delete? && session !in t.closed
    ensures CanTake(t, |s.actions|, session)
    ensures var u := Took(t, |s.actions|, session);
      && u.runs == s.runs + [UndoRun(key, |s.groups|, None, Recorded)] && u.undoing == s.undoing + {key}
      && u.actions == t.actions[|s.actions| := Settled(t.actions[|s.actions|], Canceled)]
      && u.listed == t.listed && u.now == t.now && u.closed == t.closed
  {
    var n, g := |s.actions|, |s.groups|;
    assert t.latest[|t.latest| - 1] in t.latest;
    assert Lookup(t.groups, t.latest, key) == Some(g);
    var u := Took(t, n, session);
    assert u.actions == t.actions[n := Settled(t.actions[n], Canceled)];
  }

  ghost predicate Named(s: State) {
    forall n :: 0 <= n < |s.actions| ==> s.actions[n].key != ""
  }

  lemma NextNamed(s: State, e: Event)
    requires Named(s) && Sane(s)
    ensures Named(Next(s, e))
  {
    hide Next, Sane, Registered;
    if IsSubmission(e) {
      if Next(s, e) != s {
        SaneStore(s);
        SubmissionRegisters(s, e);
        RegisteredTouches(s, e.key, Submission(e), e.session);
        assert forall n :: 0 <= n < |s.actions| ==> Next(s, e).actions[n] == Next(s, e).actions[..|s.actions|][n];
      }
    } else {
      NextSameShape(s, e);
    }
  }

  /** Actions and inverses belong to a Tonie with a name. */
  lemma {:induction false} InversesAreNamed(events: seq<Event>)
    ensures Named(Reached(events))
    ensures forall i :: 0 <= i < |Reached(events).runs| && Reached(events).runs[i].phase.Remote? ==>
      Reached(events).runs[i].key != ""
    decreases |events|
  {
    hide Next, Holds, Sane, StartsInverse;
    if events != [] {
      var head, e := events[..|events| - 1], events[|events| - 1];
      InversesAreNamed(head);
      HoldsParts(Reached(head));
      NextNamed(Reached(head), e);
      forall i | 0 <= i < |Reached(events).runs| && Reached(events).runs[i].phase.Remote?
        ensures Reached(events).runs[i].key != ""
      {
        RemoteBefore(Reached(head), e, i);
        if i >= |Reached(head).runs| { StartsOnAction(Reached(head), e.action, e.session); }
      }
    }
  }

  lemma StartsOnAction(s: State, n: nat, session: Session)
    requires StartsInverse(s, n, session)
    ensures n < |s.actions|
  {
  }

  /** Deleting a row and undoing that at once, for the `n`-th action and the `k`-th undo call of the run. */
  function DeleteUndone(key: Key, row: Target, session: Session, n: nat, k: nat): seq<Event> {
    [Submit(key, [Delete(row)], session), UndoBegin(n, session), UndoFinish(k)]
  }

  /** While an inverse of `key` runs, deleting a row there and undoing that at once lifts the block. */
  lemma {:induction false} UndoneDeleteLiftsBlock(events: seq<Event>, i: nat, row: Target, session: Session)
    requires i < |Reached(events).runs| && Reached(events).runs[i].phase.Remote?
    requires session !in Reached(events).closed
    ensures var s := Reached(events);
      var key := s.runs[i].key;
      var t := Reached(events + DeleteUndone(key, row, session, |s.actions|, |s.runs|));
      && i < |t.runs| && t.runs[i] == s.runs[i] && key !in t.undoing && !Guarded(t)
      && (AtRest(s, key) ==> AtRest(t, key)) && session !in t.closed
  {
    hide Reached, Holds, Next, CanTake, Took, Added, AtRest, Sane;
    var s := Reached(events);
    var key := s.runs[i].key;
    var submit, undo, finish := Submit(key, [Delete(row)], session), UndoBegin(|s.actions|, session),
      UndoFinish(|s.runs|);
    assert events + DeleteUndone(key, row, session, |s.actions|, |s.runs|) == events + [submit] + [undo] + [finish];
    InversesAreNamed(events);
    HoldsParts(s);
    ReachedOneMore(events, submit);
    EditAdds(s, key, Delete(row), session);
    var t := Reached(events + [submit]);
    HoldsParts(t);
    AddedKeepsOpen(s, t, key, Delete(row), session);
    AddedIsOffered(s, t, key, Delete(row), session);
    ReachedOneMore(events + [submit], undo);
    NextUndoEvents(t, undo);
    var u := Reached(events + [submit] + [undo]);
    HoldsParts(u);
    ReachedOneMore(events + [submit] + [undo], finish);
    NextUndoEvents(u, finish);
    CanceledRests(s, t, u, key, row, session);
  }

  lemma AddedKeepsOpen(s: State, t: State, key: Key, op: Op, session: Session)
    requires Added(s, t, key, op, session)
    ensures t.closed == s.closed
  {
  }

  lemma CanceledRests(s: State, t: State, u: State, key: Key, row: Target, session: Session)
    requires Added(s, t, key, Delete(row), session)
    requires u.actions == t.actions[|s.actions| := Settled(t.actions[|s.actions|], Canceled)]
    ensures AtRest(s, key) ==> AtRest(u, key)
    ensures forall v: State :: v.actions == u.actions ==> (AtRest(u, key) ==> AtRest(v, key))
  {
    forall n | 0 <= n < |s.actions| ensures u.actions[n] == s.actions[n] {
      assert t.actions[..|s.actions|][n] == t.actions[n];
    }
  }

  // ---- A write beside an inverse ----

  /** The events of one edit on its way to the cloud: it is queued once nothing is deferred any more, seen and taken. */
  function EditWritten(key: Key, op: Op, session: Session): seq<Event> {
    [Tick(DELETE_DELAY), Submit(key, [op], session), WorkerLook(key, 0.0), WorkerCollect(key)]
  }

  /** Nothing is deferred any more `wait` seconds from now. */
  ghost predicate DueAfter(s: State, wait: real) {
    s.now >= 0.0 && forall n :: 0 <= n < |s.actions| ==> s.actions[n].readyAt <= s.now + wait
  }

  lemma RegisteredDue(s: State, key: Key, ops: seq<Op>, session: Session)
    requires StoreFits(s) && DueAfter(s, DELETE_DELAY)
    ensures DueAfter(Registered(s, key, ops, session), DELETE_DELAY)
  {
    hide Kept, Newest, DefersDeletes, InvalidateAll, Numbers, EnsureWorker, ToSet;
  }

  lemma LaterDue(s: State, t: State)
    requires DueAfter(s, DELETE_DELAY) && |t.actions| == |s.actions| && ActionSteps(s, t) && s.now <= t.now
    ensures DueAfter(t, DELETE_DELAY)
  {
  }

  lemma NextDue(s: State, e: Event)
    requires Inv(s) && Sane(s) && DueAfter(s, DELETE_DELAY)
    ensures DueAfter(Next(s, e), DELETE_DELAY)
  {
    hide Next, Inv, Registry, Workers, Runs, Sane, Registered, DueAfter, ActionSteps;
    SaneStore(s);
    InvHasRegistry(s);
    if IsSubmission(e) {
      if Next(s, e) != s {
        SubmissionRegisters(s, e);
        RegisteredDue(s, e.key, Submission(e), e.session);
        DueIsAboutActions(Registered(s, e.key, Submission(e), e.session), Next(s, e));
      }
    } else {
      NextSteps(s, e);
      NextSameShape(s, e);
      ClockGrows(s, e);
      LaterDue(s, Next(s, e));
    }
  }

  lemma DueIsAboutActions(s: State, t: State)
    ensures t.actions == s.actions && t.now == s.now ==> (DueAfter(s, DELETE_DELAY) ==> DueAfter(t, DELETE_DELAY))
  {
  }

  lemma ClockGrows(s: State, e: Event)
    requires Sane(s)
    ensures s.now <= Next(s, e).now
  {
    hide Next, Sane;
    if e.WorkerCollect? {
      NextIsCollected(s, e.key);
    } else {
      NextEntered(s, e);
    }
  }

  /** In every reachable state, nothing is deferred for longer than the deletion window. */
  lemma {:induction false} DeferralIsBounded(events: seq<Event>)
    ensures DueAfter(Reached(events), DELETE_DELAY)
    decreases |events|
  {
    hide Next, Holds, DueAfter, Sane;
    if events == [] {
      InitIsDue();
    } else {
      var head := events[..|events| - 1];
      DeferralIsBounded(head);
      HoldsParts(Reached(head));
      NextDue(Reached(head), events[|events| - 1]);
    }
  }

  lemma InitIsDue()
    ensures DueAfter(INIT, DELETE_DELAY)
  {
  }

  lemma EditIsReady(s: State, t: State, key: Key, op: Op, session: Session)
    requires Added(s, t, key, op, session) && key !in t.undoing && !op.Delete? && IsEdit(op) && DueAfter(s, 0.0)
    ensures Batchable(t, key, |s.actions|)
  {
    forall m | 0 <= m < |s.actions| ensures t.actions[m].readyAt <= t.now {
      assert t.actions[..|s.actions|][m] == t.actions[m];
    }
  }

  lemma SubmitWakes(s: State, key: Key, op: Op, session: Session)
    requires Sane(s) && key != "" && session !in s.closed && IsEdit(op)
    ensures var t := Next(s, Submit(key, [op], session)); key in t.workers && !t.workers[key].Asleep?
  {
    hide Next, Sane, Registered;
    SubmitRegisters(s, key, op, session);
    RegisteredTouches(s, key, [op], session);
  }

  /** A worker that is awake takes what is ready. */
  lemma ReadyIsTaken(s: State, key: Key, n: nat)
    requires Batchable(s, key, n) && key in s.workers && !s.workers[key].Asleep?
    ensures IsWriting(Collected(Looked(s, key, 0.0), key), key)
  {
    assert n in ReadyBatch(s, key);
    hide BatchBelow;
    var t := Looked(s, key, 0.0);
    if !s.workers[key].Writing? {
      assert Batchable(t, key, n);
      assert n in ReadyBatch(t, key);
    }
  }

  lemma LookedRuns(s: State, key: Key)
    ensures Looked(s, key, 0.0).runs == s.runs && Collected(s, key).runs == s.runs
  {
  }

  /** On a Tonie that is not blocked an edit always gets into a write, and no undo call moves meanwhile. */
  lemma {:induction false} EditEntersWrite(events: seq<Event>, key: Key, op: Op, session: Session)
    requires key !in Reached(events).undoing && key != "" && session !in Reached(events).closed
    requires IsEdit(op) && !op.Delete?
    ensures var t := Reached(events + EditWritten(key, op, session));
      t.runs == Reached(events).runs && IsWriting(t, key)
  {
    hide Reached, Holds, Next, Sane, Batchable, Looked, Collected, Added, IsWriting;
    var tick, submit, look, collect := Tick(DELETE_DELAY), Submit(key, [op], session), WorkerLook(key, 0.0),
      WorkerCollect(key);
    assert events + EditWritten(key, op, session) == events + [tick] + [submit] + [look] + [collect];
    DeferralIsBounded(events);
    ThenTick(events, DELETE_DELAY);
    var b := Reached(events + [tick]);
    HoldsParts(b);
    ReachedOneMore(events + [tick], submit);
    EditAdds(b, key, op, session);
    SubmitWakes(b, key, op, session);
    NextRunsSame(b, submit);
    var c := Reached(events + [tick] + [submit]);
    EditIsReady(b, c, key, op, session);
    ReadyIsTaken(c, key, |b.actions|);
    HoldsParts(c);
    ReachedOneMore(events + [tick] + [submit], look);
    NextIsLooked(c, key, 0.0);
    var d := Reached(events + [tick] + [submit] + [look]);
    HoldsParts(d);
    ReachedOneMore(events + [tick] + [submit] + [look], collect);
    NextIsCollected(d, key);
    LookedRuns(c, key);
    LookedRuns(d, key);
  }

  /** Then any edit is written while the inverse still runs, whatever else the Tonie waits for. */
  lemma {:induction false} WriteBesideInverse(events: seq<Event>, i: nat, row: Target, op: Op, session: Session)
    requires i < |Reached(events).runs| && Reached(events).runs[i].phase.Remote?
    requires session !in Reached(events).closed && IsEdit(op) && !op.Delete?
    ensures var s := Reached(events);
      var key := s.runs[i].key;
      Beside(Reached(events + DeleteUndone(key, row, session, |s.actions|, |s.runs|)
        + EditWritten(key, op, session)), i, key)
  {
    hide Reached, Holds, IsWriting, AtRest, Guarded, EditWritten, DeleteUndone;
    var s := Reached(events);
    var key := s.runs[i].key;
    InversesAreNamed(events);
    UndoneDeleteLiftsBlock(events, i, row, session);
    EditEntersWrite(events + DeleteUndone(key, row, session, |s.actions|, |s.runs|), key, op, session);
  }

  // ---- Exactly when ----

  lemma {:induction false} UnusedSession(closed: set<Session>) returns (session: Session)
    ensures session !in closed && forall x :: x in closed ==> x < session
    decreases |closed|
  {
    if closed == {} {
      session := 0;
    } else {
      var x :| x in closed;
      session := UnusedSession(closed - {x});
      assert forall y :: y in closed ==> y == x || y in closed - {x};
      if x >= session { session := x + 1; }
    }
  }

  lemma EditIsAlone(events: seq<Event>, key: Key, op: Op, session: Session)
    ensures AloneFrom(events, EditWritten(key, op, session))
  {
    hide Reached, Holds;
  }

  lemma OpenBlockMeetsWrite(events: seq<Event>, i: nat, key: Key) returns (more: seq<Event>)
    requires Inverting(Reached(events), i, key) && key !in Reached(events).undoing
    ensures AloneFrom(events, more) && Beside(Reached(events + more), i, key)
  {
    hide Reached, Holds, IsWriting, EditWritten, AloneFrom;
    InversesAreNamed(events);
    var session := UnusedSession(Reached(events).closed);
    EditEntersWrite(events, key, Clear, session);
    EditIsAlone(events, key, Clear, session);
    more := EditWritten(key, Clear, session);
  }

  /** From any reachable state with a running inverse, as long as no other undo of its Tonie finishes: a write can come
      to be in flight beside it if and only if one already is, or the block has been lifted. */
  lemma {:induction false} BesideInverseIff(events: seq<Event>, i: nat)
    requires i < |Reached(events).runs| && Reached(events).runs[i].phase.Remote?
    ensures var s := Reached(events);
      var key := s.runs[i].key;
      (exists more :: AloneFrom(events, more) && Beside(Reached(events + more), i, key))
      <==> key !in s.undoing || IsWriting(s, key)
  {
    hide Reached, Holds, IsWriting, AloneFrom;
    var s := Reached(events);
    var key := s.runs[i].key;
    if key !in s.undoing {
      var more := OpenBlockMeetsWrite(events, i, key);
    } else if IsWriting(s, key) {
      NothingIsAlone(events);
      assert events + [] == events;
      assert Beside(Reached(events + []), i, key);
    } else {
      forall more | AloneFrom(events, more) && Beside(Reached(events + more), i, key) ensures false {
        BlockHolds(events, more, i, key);
      }
    }
  }

  lemma NothingIsAlone(events: seq<Event>)
    ensures AloneFrom(events, [])
  {
  }

  /** Without that restriction every running inverse can meet a write: its block can always be lifted. */
  lemma {:induction false} EveryInverseCanMeetWrite(events: seq<Event>, i: nat)
    requires i < |Reached(events).runs| && Reached(events).runs[i].phase.Remote?
    ensures exists more :: Beside(Reached(events + more), i, Reached(events).runs[i].key)
  {
    hide Reached, Holds, IsWriting, EditWritten, DeleteUndone;
    var s := Reached(events);
    var key, row := s.runs[i].key, Target("c", None, None);
    var session := UnusedSession(s.closed);
    WriteBesideInverse(events, i, row, Clear, session);
    var more := DeleteUndone(key, row, session, |s.actions|, |s.runs|) + EditWritten(key, Clear, session);
    assert events + more == events + DeleteUndone(key, row, session, |s.actions|, |s.runs|)
      + EditWritten(key, Clear, session);
    assert Beside(Reached(events + more), i, key);
  }
}
