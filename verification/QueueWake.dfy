/** No lost wake-up: work that is ready always has a worker that will look at it. */
module QueueWake {
  import opened Lists
  import opened CloudWrite
  import opened Queue
  import opened QueueInvariants
  import opened QueueSteps

  /** A timeout that fires no later than `at`. */
  ghost predicate FiresBy(until: Option<real>, at: real) {
    until.Some? && until.value <= at
  }

  /** A sleeping worker's timeout covers every deferred action of its Tonie, and is due if a batch is ready. */
  ghost predicate Sound(s: State, key: Key, until: Option<real>) {
    && (forall n :: 0 <= n < |s.actions| && Pending(s, key, n) && s.actions[n].readyAt > s.now
          ==> FiresBy(until, s.actions[n].readyAt))
    && (forall n :: 0 <= n < |s.actions| && Batchable(s, key, n) ==> FiresBy(until, s.now))
  }

  ghost predicate Wakeful(s: State) {
    forall k :: k in s.workers && s.workers[k].Asleep? ==> Sound(s, k, s.workers[k].until)
  }

  /** Between `s` and `t`, nothing of this Tonie becomes ready except by the clock. */
  ghost predicate NothingReady(s: State, t: State, key: Key) {
    && |s.actions| <= |t.actions| && s.now <= t.now
    && (forall n :: 0 <= n < |t.actions| && Pending(t, key, n) ==>
          if n < |s.actions| then Pending(s, key, n) && t.actions[n].readyAt == s.actions[n].readyAt
          else t.actions[n].readyAt <= t.now && t.actions[n].IsUpload() && t.actions[n].status != Ready)
    && (forall n :: 0 <= n < |s.actions| && Pending(s, key, n) && !Pending(t, key, n) ==> key in t.undoing)
    && (key in s.undoing ==> key in t.undoing)
    && (forall n :: 0 <= n < |s.actions| && Pending(t, key, n) ==>
          && s.actions[n].IsUpload() == t.actions[n].IsUpload()
          && (t.actions[n].status == s.actions[n].status
              || (t.actions[n].IsUpload() && t.actions[n].status != Ready && s.actions[n].status != Ready)))
  }

  lemma NothingReadyKeeps(s: State, t: State, key: Key, until: Option<real>)
    requires Sound(s, key, until) && NothingReady(s, t, key)
    ensures Sound(t, key, until)
  {
    forall n | 0 <= n < |t.actions| && Batchable(t, key, n) ensures FiresBy(until, t.now) {
      assert Pending(t, key, n) && n < |s.actions|;
      if m :| 0 <= m <= n && Pending(s, key, m) && s.actions[m].readyAt > s.now {
        assert Pending(t, key, m);
      } else {
        BatchableBefore(s, t, key, n);
      }
    }
  }

  lemma BatchableBefore(s: State, t: State, key: Key, n: nat)
    requires NothingReady(s, t, key) && Batchable(t, key, n) && n < |s.actions|
    requires forall m :: 0 <= m <= n && Pending(s, key, m) ==> s.actions[m].readyAt <= s.now
    ensures Batchable(s, key, n)
  {
    forall m | 0 <= m <= n && Pending(s, key, m) ensures Pending(t, key, m) {
    }
  }

  // ---- Step by step ----

  /** These events notify every sleeping worker. */
  ghost predicate Notifies(e: Event) {
    e.Submit? || e.Cancel? || e.UndoFinish? || e.TransferEnd? || e.Reset?
  }

  lemma NotifiedAreAwake(s: State, e: Event)
    requires Sane(s) && Notifies(e) && Next(s, e) != s
    ensures forall k :: k in Next(s, e).workers ==> !Next(s, e).workers[k].Asleep?
  {
    hide Registered;
  }

  /** Where a sleeping worker comes from: it was asleep before, or it just looked and found nothing. */
  ghost predicate StillAsleep(s: State, t: State) {
    forall k :: k in t.workers && t.workers[k].Asleep? ==> k in s.workers && s.workers[k] == t.workers[k]
  }

  /** Going to sleep is sound exactly when nothing is ready at the clock value the deadlines were read at. */
  lemma {:induction false} SleepIsSound(s: State, key: Key)
    requires Deferral(s)
    ensures Sound(FellAsleep(s, key), key, DeadlineBelow(s, key, |s.actions|)) <==> ReadyBatch(s, key) == []
  {
    var t := FellAsleep(s, key);
    var until := DeadlineBelow(s, key, |s.actions|);
    forall n | 0 <= n < |t.actions| && Pending(t, key, n) && t.actions[n].readyAt > t.now
      ensures FiresBy(until, t.actions[n].readyAt)
    {
      assert Deferred(s, key, n);
    }
    assert forall n: nat :: Batchable(s, key, n) <==> n in ReadyBatch(s, key);
    assert forall n: nat :: Batchable(t, key, n) == Batchable(s, key, n);
    if ReadyBatch(s, key) != [] {
      var n := ReadyBatch(s, key)[0];
      assert n in ReadyBatch(s, key);
      assert Batchable(t, key, n) && !FiresBy(until, t.now);
    }
  }

  /** No deadline passed between the two clock readings of a worker that finds nothing to do. */
  ghost predicate Prompt(s: State, e: Event) {
    (e.WorkerLook? && e.lag >= 0.0 && e.key in s.workers && s.workers[e.key].Awake? && ReadyBatch(s, e.key) == [])
      ==> ReadyBatch(s.(now := s.now + e.lag), e.key) == []
  }

  lemma FellAsleepWakeful(s: State, key: Key)
    requires Wakeful(s) && Deferral(s) && key in s.workers && s.workers[key].Awake?
    ensures Wakeful(FellAsleep(s, key)) <==> ReadyBatch(s, key) == []
  {
    var t := FellAsleep(s, key);
    SleepIsSound(s, key);
    hide Sound;
    forall k | k in t.workers && t.workers[k].Asleep? && k != key ensures Sound(t, k, t.workers[k].until) {
      SoundAnywhere(s, t, k, t.workers[k].until);
    }
    assert Wakeful(t) ==> Sound(t, key, t.workers[key].until);
  }

  lemma LaterWakeful(s: State, later: real)
    requires Wakeful(s) && Deferral(s) && s.now <= later
    ensures Wakeful(s.(now := later)) && Deferral(s.(now := later))
  {
    var t := s.(now := later);
    forall k ensures NothingReady(s, t, k) {
    }
    hide NothingReady, Sound;
    WakefulFollows(s, t);
  }

  lemma LookedWakeful(s: State, key: Key, lag: real)
    requires Wakeful(s) && Deferral(s)
    ensures Wakeful(Looked(s, key, lag)) <==> Prompt(s, WorkerLook(key, lag))
  {
    if key in s.workers && s.workers[key].Awake? && lag >= 0.0 {
      if ReadyBatch(s, key) == [] {
        hide Wakeful, Deferral;
        LaterWakeful(s, s.now + lag);
        FellAsleepWakeful(s.(now := s.now + lag), key);
      } else {
        var t := Looked(s, key, lag);
        hide Sound;
        forall k | k in t.workers && t.workers[k].Asleep? ensures Sound(t, k, t.workers[k].until) {
          SoundAnywhere(s, t, k, t.workers[k].until);
        }
      }
    }
  }

  lemma SoundAnywhere(s: State, t: State, key: Key, until: Option<real>)
    requires Sound(s, key, until)
    requires t.actions == s.actions && t.listed == s.listed && t.now == s.now && t.undoing == s.undoing
    ensures Sound(t, key, until)
  {
    forall n | 0 <= n < |t.actions| && Batchable(t, key, n) ensures FiresBy(until, t.now) {
      assert Batchable(s, key, n);
    }
  }

  lemma WakefulFollows(s: State, t: State)
    requires Wakeful(s) && StillAsleep(s, t)
    requires forall k :: k in t.workers && t.workers[k].Asleep? ==> NothingReady(s, t, k)
    ensures Wakeful(t)
  {
    forall k | k in t.workers && t.workers[k].Asleep? ensures Sound(t, k, t.workers[k].until) {
      NothingReadyKeeps(s, t, k, t.workers[k].until);
    }
  }

  lemma SameQueue(s: State, t: State, k: Key)
    requires t.actions == s.actions && t.listed == s.listed && t.undoing == s.undoing && s.now <= t.now
    requires t.workers == s.workers || exists key :: key in s.workers && t.workers == s.workers[key := Awake]
    ensures StillAsleep(s, t) && NothingReady(s, t, k)
  {
  }

  lemma RecordedNothingReady(s: State, run: nat, confirmed: bool, k: Key)
    requires Runs(s)
    ensures StillAsleep(s, UndoRecorded(s, run, confirmed)) && NothingReady(s, UndoRecorded(s, run, confirmed), k)
  {
    if run < |s.runs| && s.runs[run].phase.Remote? {
      assert AllDone(s, s.groups[s.runs[run].group].actions);
    }
  }

  lemma BegunNothingReady(s: State, n: nat, k: Key)
    requires Registry(s)
    ensures StillAsleep(s, TransferBegun(s, n)) && NothingReady(s, TransferBegun(s, n), k)
  {
    hide SetAll;
    var t := TransferBegun(s, n);
    forall m | 0 <= m < |t.actions| && Pending(t, k, m)
      ensures Pending(s, k, m) && t.actions[m].readyAt == s.actions[m].readyAt
    {
    }
  }

  /** The clock, records, and waking up add no pending action. */
  lemma QuietEvents(s: State, e: Event, k: Key)
    requires Sane(s) && (e.Tick? || e.Wake? || e.Close? || e.Probe? || e.UndoRecord? || e.TransferBegin?)
    requires Registry(s) && Runs(s)
    ensures StillAsleep(s, Next(s, e)) && NothingReady(s, Next(s, e), k)
  {
    hide UndoRecorded, TransferBegun, StillAsleep, NothingReady, Sane, Registry, Runs;
    if e.UndoRecord? {
      RecordedNothingReady(s, e.run, InverseDone(s, e.run, e.cloud), k);
    } else if e.TransferBegin? {
      BegunNothingReady(s, e.action, k);
    } else {
      SameQueue(s, Next(s, e), k);
    }
  }

  lemma CanceledNothingReady(s: State, t: State, key: Key, canceled: seq<nat>, k: Key)
    requires t.actions == s.actions || t.actions == SettleAll(s.actions, canceled, Canceled)
    requires forall m :: m in canceled ==> m < |s.actions| && s.actions[m].key == key
    requires t.now == s.now && t.listed == s.listed && t.undoing == s.undoing + {key}
    ensures NothingReady(s, t, k)
  {
  }

  lemma TookNothingReady(s: State, n: nat, session: Session, k: Key)
    requires Shape(s) && StoreFits(s) && CanTake(s, n, session)
    ensures StillAsleep(s, Took(s, n, session)) && NothingReady(s, Took(s, n, session), k)
  {
    hide Lookup, NothingReady;
    var g := Lookup(s.groups, s.latest, s.actions[n].key).value;
    forall m | m in s.groups[g].actions ensures m < |s.actions| && s.actions[m].key == s.groups[g].key {
      assert Owned(s, g, m);
    }
    CanceledNothingReady(s, Took(s, n, session), s.actions[n].key, s.groups[g].actions, k);
  }

  lemma RefusedNothingReady(s: State, n: nat, k: Key)
    requires StoreFits(s)
    ensures StillAsleep(s, AfterRefusal(s, n)) && NothingReady(s, AfterRefusal(s, n), k)
  {
    hide Lookup;
  }

  lemma CollectedNothingReady(s: State, t: State, key: Key, k: Key)
    requires k != key && t == Collected(s, key)
    ensures NothingReady(s, t, k)
  {
    forall n | n in ReadyBatch(s, key) ensures n < |s.actions| && s.actions[n].key == key {
      assert Batchable(s, key, n);
    }
    hide BatchBelow, Batchable;
  }

  lemma CollectedStillAsleep(s: State, t: State, key: Key)
    requires t == Collected(s, key)
    ensures StillAsleep(s, t) && (t != s ==> key in t.workers && !t.workers[key].Asleep?)
  {
    hide BatchBelow;
  }

  lemma EndingStillAsleep(s: State, key: Key, ending: Ending, t: State)
    requires Sane(s) && key in s.workers && s.workers[key].Writing?
    requires EndsAs(s, key, s.workers[key].batch, ending, t)
    ensures StillAsleep(s, t)
  {
    hide EndsAs;
    EndingTouches(s, key, s.workers[key].batch, ending, t);
  }

  lemma EndingNothingReady(s: State, key: Key, ending: Ending, t: State, k: Key)
    requires Sane(s) && Workers(s) && key in s.workers && s.workers[key].Writing? && k != key
    requires EndsAs(s, key, s.workers[key].batch, ending, t)
    ensures NothingReady(s, t, k)
  {
    hide EndsAs, Batchable;
    var batch := s.workers[key].batch;
    assert WritesBatch(s, key, batch);
    EndingTouches(s, key, batch, ending, t);
    EndingListed(s, key, batch, ending, t);
  }

  lemma AppendNothingReady(s: State, t: State, k: Key)
    requires |s.actions| < |t.actions| && t.actions[..|s.actions|] == s.actions && t.now == s.now >= 0.0
    requires forall n :: |s.actions| <= n < |t.actions| ==>
      t.actions[n].status.Queued? && t.actions[n].IsUpload() && t.actions[n].readyAt == 0.0
    requires forall n :: n in t.listed ==> n in s.listed || n >= |s.actions|
    requires forall n :: n in s.listed ==> n in t.listed
    requires t.undoing == s.undoing
    ensures NothingReady(s, t, k)
  {
    forall n | 0 <= n < |s.actions| ensures t.actions[n] == s.actions[n] {
      assert t.actions[..|s.actions|][n] == t.actions[n];
    }
  }

  lemma UploadNothingReady(s: State, e: Event, k: Key)
    requires Sane(s) && Deferral(s) && Registry(s) && e.SubmitUpload?
    ensures StillAsleep(s, Next(s, e)) && NothingReady(s, Next(s, e), k)
  {
    hide Next, NothingReady, Sane, Registry;
    if Next(s, e) != s {
      SubmissionRegisters(s, e);
      SubmissionAppends(s, e);
      hide DefersDeletes, Kept, Newest, NewActions, InvalidateAll;
      AppendNothingReady(s, Next(s, e), k);
    } else {
      SameQueue(s, s, k);
    }
  }

  /** Every step keeps sleeping workers safe, except a look between whose two clock readings a deadline passes. */
  lemma NextWakeful(s: State, e: Event)
    requires Inv(s) && Sane(s) && Wakeful(s)
    ensures Wakeful(Next(s, e)) <==> Prompt(s, e)
  {
    hide Next, EndsAs, NothingReady, StillAsleep, Sound, CanTake, Took, AfterRefusal, Collected, Looked;
    var t := Next(s, e);
    if Notifies(e) {
      if t != s { NotifiedAreAwake(s, e); }
    } else if e.WorkerLook? {
      LookedWakeful(s, e.key, e.lag);
      NextIsLooked(s, e.key, e.lag);
    } else if e.WorkerCollect? {
      NextIsCollected(s, e.key);
      CollectedWakeful(s, t, e.key);
    } else if e.WorkerDone? {
      DoneWakeful(s, e.key, e.call);
    } else {
      OneEvent(s, e, "");
      forall k ensures NothingReady(s, t, k) { OneEvent(s, e, k); }
      WakefulFollows(s, t);
    }
  }

  lemma NextIsLooked(s: State, key: Key, lag: real)
    requires Sane(s)
    ensures Next(s, WorkerLook(key, lag)) == Looked(s, key, lag)
  {
    hide Looked;
  }

  lemma OneEvent(s: State, e: Event, k: Key)
    requires Inv(s) && Sane(s)
    requires !Notifies(e) && !e.WorkerLook? && !e.WorkerCollect? && !e.WorkerDone?
    ensures StillAsleep(s, Next(s, e)) && NothingReady(s, Next(s, e), k)
  {
    hide Next, NothingReady, StillAsleep, CanTake, Took, AfterRefusal;
    if e.SubmitUpload? {
      UploadNothingReady(s, e, k);
    } else if e.UndoBegin? {
      NextUndoEvents(s, e);
      if CanTake(s, e.action, e.session) {
        TookNothingReady(s, e.action, e.session, k);
      } else {
        RefusedNothingReady(s, e.action, k);
      }
    } else {
      QuietEvents(s, e, k);
    }
  }

  lemma CollectedWakeful(s: State, t: State, key: Key)
    requires Wakeful(s) && t == Collected(s, key)
    ensures Wakeful(t)
  {
    if t != s {
      CollectedStillAsleep(s, t, key);
      forall k | k in t.workers && t.workers[k].Asleep? ensures NothingReady(s, t, k) {
        CollectedNothingReady(s, t, key, k);
      }
      WakefulFollows(s, t);
    }
  }

  lemma DoneWakeful(s: State, key: Key, call: ApplyCall)
    requires Workers(s) && Sane(s) && Wakeful(s)
    ensures Wakeful(Next(s, WorkerDone(key, call)))
  {
    hide Next, EndsAs, NothingReady, StillAsleep, Sound, Workers;
    var t := Next(s, WorkerDone(key, call));
    if key in s.workers && s.workers[key].Writing? {
      var ending := DoneEnds(s, key, call);
      EndingTouches(s, key, s.workers[key].batch, ending, t);
      EndingStillAsleep(s, key, ending, t);
      forall k | k in t.workers && t.workers[k].Asleep? ensures NothingReady(s, t, k) {
        EndingNothingReady(s, key, ending, t, k);
      }
      WakefulFollows(s, t);
    } else {
      DoneIgnored(s, key, call);
    }
  }
}
