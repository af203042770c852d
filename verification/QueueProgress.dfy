/** Nothing gets stuck: unless a wake-up was lost, everything that waits comes to an end, whatever the world answers.
    And what is deferred can be undone exactly until it is due. */
module QueueProgress {
  import opened CloudWrite
  import opened Queue
  import opened QueueInvariants
  import opened QueueSteps
  import opened QueueWake
  import opened QueueRuns
  import opened QueueStatus
  import opened QueueTidy
  import opened QueueOverlap
  import opened QueueCounterexamples

  // ---- Steps of the queue itself ----

  /** What the storage and the cloud answer at each moment of a run. */
  datatype World = World(sent: nat -> Prepared, written: nat -> ApplyCall, restored: nat -> UndoCloud)

  /** A step that the queue takes by itself, with the answer that the world gives at this moment; nobody submits,
      cancels, undoes or resets. */
  ghost predicate OwnStep(world: World, at: nat, e: Event) {
    match e
    case Tick(_) => true
    case UndoRecord(_, cloud) => cloud == world.restored(at)
    case UndoFinish(_) => true
    case TransferBegin(_) => true
    case TransferEnd(_, prepared) => prepared == world.sent(at)
    case Wake(_) => true
    case WorkerLook(_, lag) => lag == 0.0
    case WorkerCollect(_) => true
    case WorkerDone(_, call) => call == world.written(at)
    case _ => false
  }

  ghost predicate OwnSteps(world: World, at: nat, more: seq<Event>) {
    forall i :: 0 <= i < |more| ==> OwnStep(world, at + i, more[i])
  }

  /** Nothing is sent, undone or blocked. */
  ghost predicate Clear(s: State) {
    OpenRuns(s) == {} && s.undoing == {} && s.unsent == {} && s.transit == {}
  }

  /** And nothing waits. */
  ghost predicate Rested(s: State) {
    Clear(s) && forall n :: 0 <= n < |s.actions| ==> !s.actions[n].status.Waiting()
  }

  // ---- Blocks ----

  ghost predicate OpenRun(s: State, i: int, key: Key) {
    0 <= i < |s.runs| && s.runs[i].key == key && s.runs[i].phase != Over
  }

  /** A blocked Tonie has an `undo` call that is still under way. */
  ghost predicate Blocks(s: State) {
    forall key :: key in s.undoing ==> exists i :: OpenRun(s, i, key)
  }

  lemma TookBlocks(s: State, n: nat, session: Session)
    requires StoreFits(s) && CanTake(s, n, session) && Blocks(s)
    ensures Blocks(Took(s, n, session))
  {
    hide Lookup, InvalidateAll, SettleAll;
    var t := Took(s, n, session);
    assert OpenRun(t, |s.runs|, s.actions[n].key);
    forall key | key in s.undoing ensures exists i :: OpenRun(t, i, key) {
      var i :| OpenRun(s, i, key);
      assert OpenRun(t, i, key);
    }
  }

  lemma MovedBlocks(s: State, run: nat, confirmed: bool)
    requires Blocks(s)
    ensures Blocks(UndoRecorded(s, run, confirmed)) && Blocks(UndoFinished(s, run))
  {
    hide SetAll, NotifyAll;
    var t, u := UndoRecorded(s, run, confirmed), UndoFinished(s, run);
    forall key | key in s.undoing
      ensures exists i :: OpenRun(t, i, key)
      ensures key in u.undoing ==> exists i :: OpenRun(u, i, key)
    {
      var i :| OpenRun(s, i, key);
      assert OpenRun(t, i, key) && (key in u.undoing ==> OpenRun(u, i, key));
    }
  }

  lemma SameBlocks(s: State, t: State)
    requires Blocks(s) && t.runs == s.runs && t.undoing == s.undoing
    ensures Blocks(t)
  {
    forall key | key in t.undoing ensures exists i :: OpenRun(t, i, key) {
      var i :| OpenRun(s, i, key);
      assert OpenRun(t, i, key);
    }
  }

  lemma NextBlocks(s: State, e: Event)
    requires Sane(s) && StoreFits(s) && Blocks(s)
    ensures Blocks(Next(s, e))
  {
    hide Next, Sane, Blocks, CanTake, Took, AfterRefusal, UndoRecorded, UndoFinished, InverseDone;
    NextUndoEvents(s, e);
    if e.UndoBegin? {
      if CanTake(s, e.action, e.session) {
        TookBlocks(s, e.action, e.session);
      } else {
        RefusedRuns(s, e.action);
        SameBlocks(s, Next(s, e));
      }
    } else if e.UndoRecord? || e.UndoFinish? {
      MovedBlocks(s, e.run, e.UndoRecord? && InverseDone(s, e.run, e.cloud));
    } else {
      NextRunsSame(s, e);
      SameBlocks(s, Next(s, e));
    }
  }

  lemma {:induction false} RunsKeepBlocks(events: seq<Event>)
    ensures Blocks(Reached(events))
    decreases |events|
  {
    hide Next, Holds, Sane, Blocks;
    if events == [] {
      NoBlocks();
    } else {
      var n := |events| - 1;
      RunsKeepBlocks(events[..n]);
      HoldsParts(Reached(events[..n]));
      SaneParts(Reached(events[..n]));
      NextBlocks(Reached(events[..n]), events[n]);
    }
  }

  lemma NoBlocks()
    ensures Blocks(INIT)
  {
  }

  // ---- What is left to do ----

  ghost function RemoteRuns(s: State): set<nat> {
    set i: nat | i < |s.runs| && s.runs[i].phase.Remote?
  }

  ghost function OpenRuns(s: State): set<nat> {
    set i: nat | i < |s.runs| && s.runs[i].phase != Over
  }

  ghost function WaitingSet(s: State): set<nat> {
    set n: nat | n < |s.actions| && s.actions[n].status.Waiting()
  }

  /** Less is left to do: inverses to return, `undo` calls to finish, uploads to send, transfers to end, and then
      actions to settle. */
  ghost predicate Less(t: State, s: State) {
    || RemoteRuns(t) < RemoteRuns(s)
    || (RemoteRuns(t) == RemoteRuns(s) &&
        (|| OpenRuns(t) < OpenRuns(s)
         || (OpenRuns(t) == OpenRuns(s) &&
             (|| t.unsent < s.unsent
              || (t.unsent == s.unsent &&
                  (|| t.transit < s.transit
                   || (t.transit == s.transit && WaitingSet(t) < WaitingSet(s))))))))
  }

  lemma RecordIsLess(s: State, i: nat, confirmed: bool)
    requires Runs(s) && i in RemoteRuns(s)
    ensures Less(UndoRecorded(s, i, confirmed), s)
  {
    hide SetAll;
    var t := UndoRecorded(s, i, confirmed);
    assert RemoteRuns(t) == RemoteRuns(s) - {i};
  }

  lemma FinishIsLess(s: State, i: nat)
    requires RemoteRuns(s) == {} && i in OpenRuns(s)
    ensures Less(UndoFinished(s, i), s)
  {
    hide NotifyAll;
    var t := UndoFinished(s, i);
    assert i !in RemoteRuns(s);
    assert OpenRuns(t) == OpenRuns(s) - {i};
    assert forall j: nat :: j in RemoteRuns(t) <==> j in RemoteRuns(s);
  }

  lemma SendIsLess(s: State, n: nat, prepared: Prepared)
    requires Registry(s)
    ensures n in s.unsent ==> TransferBegun(s, n).unsent < s.unsent && TransferBegun(s, n).runs == s.runs
    ensures var t := TransferEnded(s, n, prepared);
      n in s.transit ==> t.transit < s.transit && t.unsent == s.unsent && t.runs == s.runs
  {
    hide SetAll, SettleAll, NotifyAll;
  }

  lemma SameRunsLess(t: State, s: State)
    requires t.runs == s.runs
    requires || t.unsent < s.unsent
             || (t.unsent == s.unsent && t.transit < s.transit)
             || (t.unsent == s.unsent && t.transit == s.transit && WaitingSet(t) < WaitingSet(s))
    ensures Less(t, s)
  {
  }

  // ---- One step ----

  lemma OwnIsPrompt(world: World, at: nat, s: State, e: Event)
    requires OwnStep(world, at, e)
    ensures Prompt(s, e)
  {
    if e.WorkerLook? { assert s.(now := s.now + e.lag) == s; }
  }

  lemma {:induction false} OneOwn(world: World, events: seq<Event>, e: Event)
    requires Wakeful(Reached(events)) && OwnStep(world, |events|, e)
    ensures Reached(events + [e]) == Next(Reached(events), e) && Wakeful(Reached(events + [e]))
  {
    hide Reached, Holds, Next, Wakeful, Prompt, OwnStep, Inv, Sane;
    ReachedOneMore(events, e);
    HoldsParts(Reached(events));
    OwnIsPrompt(world, |events|, Reached(events), e);
    NextWakeful(Reached(events), e);
  }

  /** As long as an `undo` call or a transfer is under way, one step brings it closer to its end. */
  lemma {:induction false} StepsOn(world: World, events: seq<Event>) returns (e: Event)
    requires Wakeful(Reached(events)) && !Clear(Reached(events))
    ensures OwnStep(world, |events|, e)
    ensures Wakeful(Reached(events + [e])) && Less(Reached(events + [e]), Reached(events))
  {
    hide Reached, Holds, Next, Wakeful, Less, Sane, Registry, Runs, UndoRecorded, UndoFinished, TransferBegun,
         TransferEnded, InverseDone, RemoteRuns, OpenRuns, Blocks;
    var s := Reached(events);
    HoldsParts(s);
    RunsKeepBlocks(events);
    BlockedIsOpen(s);
    if i :| i in RemoteRuns(s) {
      e := UndoRecord(i, world.restored(|events|));
      NextUndoEvents(s, e);
      RecordIsLess(s, i, InverseDone(s, i, e.cloud));
    } else if i :| i in OpenRuns(s) {
      e := UndoFinish(i);
      NextUndoEvents(s, e);
      FinishIsLess(s, i);
    } else if n :| n in s.unsent {
      e := TransferBegin(n);
      NextIs(s, e);
      SendIsLess(s, n, world.sent(|events|));
      SameRunsLess(TransferBegun(s, n), s);
    } else if n :| n in s.transit {
      e := TransferEnd(n, world.sent(|events|));
      NextIs(s, e);
      SendIsLess(s, n, e.prepared);
      SameRunsLess(TransferEnded(s, n, e.prepared), s);
    } else {
      assert false;
    }
    OneOwn(world, events, e);
  }

  lemma BlockedIsOpen(s: State)
    requires Blocks(s)
    ensures s.undoing != {} ==> OpenRuns(s) != {}
  {
    if s.undoing != {} {
      var key :| key in s.undoing;
      var i :| OpenRun(s, i, key);
      assert i in OpenRuns(s);
    }
  }

  // ---- The worker ----

  /** Once nothing is sent or blocked and every delay has passed, all that waits is ready. */
  lemma AllIsReady(s: State, n: nat)
    requires Registry(s) && Workers(s) && Sending(s) && Clear(s) && DueAfter(s, 0.0)
    requires n < |s.actions| && s.actions[n].status.Waiting() && !IsWriting(s, s.actions[n].key)
    ensures Batchable(s, s.actions[n].key, n)
  {
    var key := s.actions[n].key;
    forall m | 0 <= m <= n && Pending(s, key, m)
      ensures s.actions[m].status == if s.actions[m].IsUpload() then Ready else Queued
    {
      assert s.actions[m].status.Applying? ==> InFlight(s, m);
    }
  }

  /** What the worker's own steps up to a write leave alone. */
  ghost predicate SameWork(s: State, t: State) {
    && t.runs == s.runs && t.undoing == s.undoing && t.unsent == s.unsent && t.transit == s.transit
    && t.workers.Keys == s.workers.Keys && WaitingSet(t) == WaitingSet(s)
  }

  lemma StillSameWork(s: State, e: Event)
    requires Registry(s) && Sane(s) && (e.Tick? || e.Wake? || e.WorkerLook?)
    ensures SameWork(s, Next(s, e)) && Next(s, e).actions == s.actions && Next(s, e).listed == s.listed
  {
    hide Next, Registry, Sane;
    StillSteps(s, e);
    NextRunsSame(s, e);
    NextListed(s, e);
    StillKeys(s, e);
  }

  lemma StillKeys(s: State, e: Event)
    requires Sane(s) && (e.Tick? || e.Wake? || e.WorkerLook?)
    ensures Next(s, e).workers.Keys == s.workers.Keys
  {
    hide ReadyBatch, DeadlineBelow, Sane;
  }

  lemma CollectSameWork(s: State, key: Key)
    ensures SameWork(s, Collected(s, key))
  {
    assert forall n: nat :: n in ReadyBatch(s, key) <==> Batchable(s, key, n);
    hide ReadyBatch;
    var t := Collected(s, key);
    forall n: nat ensures n in WaitingSet(t) <==> n in WaitingSet(s) {
    }
  }

  lemma SameWorkClear(s: State, t: State)
    requires SameWork(s, t)
    ensures Clear(s) ==> Clear(t)
  {
  }

  lemma SameWorkTwice(s: State, t: State, u: State)
    requires SameWork(s, t) && SameWork(t, u)
    ensures SameWork(s, u)
  {
  }

  /** A worker whose timeout is due wakes up; one that is awake looks; one that found work collects it. */
  lemma WorkerIsUp(s: State, key: Key, n: nat)
    requires Wakeful(s) && key in s.workers && (IsWriting(s, key) || Batchable(s, key, n))
    ensures var t := Woken(s, key);
      IsWriting(Collected(Looked(t, key, 0.0), key), key) && (IsWriting(t, key) || Batchable(t, key, n))
  {
    hide ReadyBatch;
    var t := Woken(s, key);
    if IsWriting(s, key) {
      assert Looked(t, key, 0.0) == s && Collected(s, key) == s;
    } else {
      assert s.workers[key].Asleep? ==> Sound(s, key, s.workers[key].until);
      assert !t.workers[key].Asleep?;
      assert Batchable(t, key, n);
      ReadyIsTaken(t, key, n);
    }
  }

  lemma NextIsWoken(s: State, key: Key)
    requires Sane(s)
    ensures Next(s, Wake(key)) == Woken(s, key)
  {
    hide Woken, Sane;
  }

  /** The deletion window passes, and the worker wakes up if it slept. */
  lemma {:induction false} WorkerWakes(world: World, events: seq<Event>, n: nat) returns (more: seq<Event>)
    requires Wakeful(Reached(events)) && Clear(Reached(events)) && n in WaitingSet(Reached(events))
    ensures OwnSteps(world, |events|, more) && Wakeful(Reached(events + more))
    ensures SameWork(Reached(events), Reached(events + more)) && n < |Reached(events).actions|
    ensures var key := Reached(events).actions[n].key;
      IsWriting(Collected(Looked(Reached(events + more), key, 0.0), key), key)
  {
    hide Reached, Holds, Next, Wakeful, Sane, Registry, Workers, Sending, SameWork, Clear, Woken, Looked, Collected,
         Batchable, IsWriting, DueAfter, WaitingSet;
    var s := Reached(events);
    WaitingIs(s, n);
    var key := s.actions[n].key;
    var tick, wake := Tick(DELETE_DELAY), Wake(key);
    more := [tick, wake];
    assert events + more == events + [tick] + [wake];
    HoldsParts(s);
    HasWorker(s, n);
    OneOwn(world, events, tick);
    StillSameWork(s, tick);
    var t := Reached(events + [tick]);
    AfterTick(events, n);
    WorkerKnown(s, t, key);
    WorkerIsUp(t, key, n);
    HoldsParts(t);
    OneOwn(world, events + [tick], wake);
    StillSameWork(t, wake);
    NextIsWoken(t, key);
    SameWorkTwice(s, t, Reached(events + more));
  }

  /** A worker that looks and collects takes the same state on. */
  lemma {:induction false} WorkerTakes(world: World, events: seq<Event>, key: Key) returns (more: seq<Event>)
    requires Wakeful(Reached(events)) && IsWriting(Collected(Looked(Reached(events), key, 0.0), key), key)
    ensures OwnSteps(world, |events|, more) && Wakeful(Reached(events + more))
    ensures SameWork(Reached(events), Reached(events + more)) && IsWriting(Reached(events + more), key)
  {
    hide Reached, Holds, Next, Wakeful, Sane, Registry, SameWork, Looked, Collected, IsWriting;
    var look, collect := WorkerLook(key, 0.0), WorkerCollect(key);
    more := [look, collect];
    assert events + more == events + [look] + [collect];
    var s := Reached(events);
    HoldsParts(s);
    OneOwn(world, events, look);
    StillSameWork(s, look);
    NextIsLooked(s, key, 0.0);
    var t := Reached(events + [look]);
    HoldsParts(t);
    OneOwn(world, events + [look], collect);
    NextIsCollected(t, key);
    CollectSameWork(t, key);
    SameWorkTwice(s, t, Reached(events + more));
  }

  lemma WaitingIs(s: State, n: nat)
    ensures n in WaitingSet(s) <==> n < |s.actions| && s.actions[n].status.Waiting()
  {
  }

  lemma HasWorker(s: State, n: nat)
    requires Workers(s) && n < |s.actions| && s.actions[n].status.Waiting()
    ensures s.actions[n].key in s.workers
  {
  }

  lemma WorkerKnown(s: State, t: State, key: Key)
    requires SameWork(s, t) && key in s.workers
    ensures key in t.workers
  {
  }

  /** After the deletion window everything that waits is due. */
  lemma {:induction false} AfterTick(events: seq<Event>, n: nat)
    requires Clear(Reached(events)) && n < |Reached(events).actions| && Reached(events).actions[n].status.Waiting()
    ensures var s, t := Reached(events), Reached(events + [Tick(DELETE_DELAY)]);
      IsWriting(t, s.actions[n].key) || Batchable(t, s.actions[n].key, n)
  {
    hide Reached, Holds, Registry, Workers, Sending, Batchable, IsWriting, Clear;
    var s, t := Reached(events), Reached(events + [Tick(DELETE_DELAY)]);
    DeferralIsBounded(events);
    ThenTick(events, DELETE_DELAY);
    RunsKeepSending(events + [Tick(DELETE_DELAY)]);
    HoldsParts(t);
    ClearLater(s, t);
    if !IsWriting(t, s.actions[n].key) { AllIsReady(t, n); }
  }

  lemma ClearLater(s: State, t: State)
    requires t == s.(now := t.now)
    ensures Clear(s) ==> Clear(t)
  {
  }

  /** However it ends, the end of a write settles what it carried. */
  lemma DoneIsLess(s: State, key: Key, call: ApplyCall)
    requires Workers(s) && Sane(s) && StoreFits(s) && IsWriting(s, key)
    ensures Less(Next(s, WorkerDone(key, call)), s)
  {
    hide Next, EndsAs, EndsFor, Workers, Sane;
    var t, batch := Next(s, WorkerDone(key, call)), s.workers[key].batch;
    WritingCarries(s, key);
    SaneParts(s);
    var ending := DoneEnds(s, key, call);
    EndingTouches(s, key, batch, ending, t);
    EndingSets(s, key, batch, ending, t);
    assert batch[0] in WaitingSet(s) && batch[0] !in WaitingSet(t);
    assert WaitingSet(t) <= WaitingSet(s);
    SameRunsLess(t, s);
  }

  lemma WritingCarries(s: State, key: Key)
    requires Workers(s) && IsWriting(s, key)
    ensures var batch := s.workers[key].batch;
      batch != [] && batch[0] in batch && (forall n :: n in batch ==> n < |s.actions| && s.actions[n].status.Applying?)
  {
    assert WritesBatch(s, key, s.workers[key].batch);
  }

  /** The worker of an action that waits comes to write. */
  lemma {:induction false} WorkerWrites(world: World, events: seq<Event>, n: nat) returns (more: seq<Event>)
    requires Wakeful(Reached(events)) && Clear(Reached(events)) && n in WaitingSet(Reached(events))
    ensures OwnSteps(world, |events|, more) && Wakeful(Reached(events + more))
    ensures SameWork(Reached(events), Reached(events + more)) && n < |Reached(events).actions|
    ensures IsWriting(Reached(events + more), Reached(events).actions[n].key)
  {
    hide Reached, Holds, Wakeful, SameWork, Clear, Looked, Collected, IsWriting, WaitingSet, OwnStep;
    var waking := WorkerWakes(world, events, n);
    var taking := WorkerTakes(world, events + waking, Reached(events).actions[n].key);
    more := waking + taking;
    assert events + more == events + waking + taking;
    OwnAndMore(world, |events|, waking, taking);
    SameWorkTwice(Reached(events), Reached(events + waking), Reached(events + more));
  }

  /** And with it at least one action is settled. */
  lemma {:induction false} WorkerSettles(world: World, events: seq<Event>, n: nat) returns (more: seq<Event>)
    requires Wakeful(Reached(events)) && Clear(Reached(events)) && n in WaitingSet(Reached(events))
    ensures OwnSteps(world, |events|, more)
    ensures Wakeful(Reached(events + more)) && Less(Reached(events + more), Reached(events))
  {
    hide Reached, Holds, Next, Wakeful, Sane, Workers, SameWork, Clear, IsWriting, Less, WaitingSet;
    var writing := WorkerWrites(world, events, n);
    var t := Reached(events + writing);
    var key := Reached(events).actions[n].key;
    HoldsParts(t);
    SaneParts(t);
    var done := WorkerDone(key, world.written(|events + writing|));
    OneOwn(world, events + writing, done);
    DoneIsLess(t, key, done.call);
    LessAsMuch(Reached(events), t, Reached(events + writing + [done]));
    more := writing + [done];
    assert events + more == events + writing + [done];
    OwnAndOne(world, |events|, writing, done);
  }

  lemma LessAsMuch(s: State, t: State, u: State)
    requires SameWork(s, t) && Less(u, t)
    ensures Less(u, s)
  {
    assert RemoteRuns(t) == RemoteRuns(s) && OpenRuns(t) == OpenRuns(s);
  }

  lemma OwnAndOne(world: World, at: nat, more: seq<Event>, e: Event)
    requires OwnSteps(world, at, more) && OwnStep(world, at + |more|, e)
    ensures OwnSteps(world, at, more + [e])
  {
  }

  lemma OwnAndMore(world: World, at: nat, a: seq<Event>, b: seq<Event>)
    requires OwnSteps(world, at, a) && OwnSteps(world, at + |a|, b)
    ensures OwnSteps(world, at, a + b)
  {
    forall i | 0 <= i < |a + b| ensures OwnStep(world, at + i, (a + b)[i]) {
      if i >= |a| { assert (a + b)[i] == b[i - |a|] && OwnStep(world, at + |a| + (i - |a|), b[i - |a|]); }
    }
  }

  /** From every reachable state in which no wake-up was lost, the queue comes to rest by its own steps: every `undo`
      call finishes, every transfer ends and every action is settled, whatever the storage and the cloud answer. */
  lemma {:induction false} EverythingSettles(world: World, events: seq<Event>) returns (more: seq<Event>)
    requires Wakeful(Reached(events))
    ensures OwnSteps(world, |events|, more) && Rested(Reached(events + more))
    decreases RemoteRuns(Reached(events)), OpenRuns(Reached(events)), Reached(events).unsent, Reached(events).transit,
              WaitingSet(Reached(events))
  {
    hide Reached, Holds, Next, Wakeful, OwnStep, RemoteRuns, OpenRuns, Clear;
    if !Clear(Reached(events)) {
      var e := StepsOn(world, events);
      var rest := EverythingSettles(world, events + [e]);
      more := [e] + rest;
      assert events + more == events + [e] + rest;
      OwnAndMore(world, |events|, [e], rest);
    } else if n :| n in WaitingSet(Reached(events)) {
      var first := WorkerSettles(world, events, n);
      var rest := EverythingSettles(world, events + first);
      more := first + rest;
      assert events + more == events + first + rest;
      OwnAndMore(world, |events|, first, rest);
    } else {
      more := [];
      assert events + more == events;
      NothingWaits(Reached(events));
    }
  }

  lemma NothingWaits(s: State)
    requires Clear(s) && forall n :: n !in WaitingSet(s)
    ensures Rested(s)
  {
    forall n | 0 <= n < |s.actions| ensures !s.actions[n].status.Waiting() { WaitingIs(s, n); }
  }
}
