/** Order over whole runs: what enters a write, and in which order. */
module QueueOrder {
  import opened Lists
  import opened Planner
  import opened CloudWrite
  import opened Queue
  import opened QueueInvariants
  import opened QueueSteps

  /** Uploads are compared with uploads, and edits with edits, of the same Tonie. */
  ghost predicate SameLane(s: State, m: nat, n: nat) {
    && m < |s.actions| && n < |s.actions|
    && s.actions[m].key == s.actions[n].key && s.actions[m].IsUpload() == s.actions[n].IsUpload()
  }

  /** Waiting, and not yet in a write. */
  ghost predicate Outside(s: State, n: nat) {
    n < |s.actions| && s.actions[n].status.Waiting() && s.actions[n].status != Applying
  }

  ghost predicate Ordered(s: State) {
    && EnteredAreActions(s)
    && (forall i, j :: 0 <= i < j < |s.entered| && SameLane(s, s.entered[i], s.entered[j]) ==>
      s.entered[i] < s.entered[j])
    && (forall e, n :: e in s.entered && 0 <= n < |s.actions| && Outside(s, n) && SameLane(s, e, n) ==> e < n)
    && (forall e, n :: e in s.entered && 0 <= n < |s.actions| && Blocks(s, e, n) ==> e < n)
  }

  /** What entered a write is in it, or has been; it was not canceled. */
  ghost predicate EnteredAreActions(s: State) {
    forall e :: e in s.entered ==> e < |s.actions| && s.actions[e].status in {Applying, Done, Failed, Undone}
  }

  /** `n` is still deferred, on the Tonie of `e`. */
  ghost predicate Blocks(s: State, e: nat, n: nat) {
    && e < |s.actions| && n < |s.actions|
    && s.actions[n].key == s.actions[e].key && s.actions[n].status.Waiting() && s.actions[n].readyAt > s.now
  }

  lemma OrderedFollows(s: State, t: State)
    requires Ordered(s) && ActionSteps(s, t) && t.entered == s.entered && s.now <= t.now
    ensures Ordered(t)
  {
    forall e | e in t.entered ensures e < |t.actions| && t.actions[e].status in {Applying, Done, Failed, Undone} {
      assert e in s.entered;
    }
    forall i, j | 0 <= i < j < |t.entered| && SameLane(t, t.entered[i], t.entered[j])
      ensures t.entered[i] < t.entered[j]
    {
      assert s.entered[i] in s.entered && s.entered[j] in s.entered;
      assert SameLane(s, s.entered[i], s.entered[j]);
    }
    forall e, n | e in t.entered && 0 <= n < |t.actions| && Outside(t, n) && SameLane(t, e, n) ensures e < n {
      if n < |s.actions| { assert Outside(s, n) && SameLane(s, e, n); }
    }
    forall e, n | e in t.entered && 0 <= n < |t.actions| && Blocks(t, e, n) ensures e < n {
      if n < |s.actions| { assert Blocks(s, e, n); }
    }
  }

  // ---- Entering a write ----

  /** The facts about one collected batch that fix its place in the order. */
  ghost predicate Enters(s: State, t: State, key: Key, batch: seq<nat>) {
    && |t.actions| == |s.actions| && t.now == s.now && t.entered == s.entered + batch && Ascends(batch)
    && (forall b :: b in batch ==> b < |s.actions| && s.actions[b].key == key && Outside(s, b))
    && (forall n :: 0 <= n < |s.actions| ==>
          t.actions[n] == if n in batch then s.actions[n].(status := Applying) else s.actions[n])
    && (forall b, n :: b in batch && 0 <= n < |s.actions| && Outside(s, n) && SameLane(s, b, n) && n !in batch ==>
      b < n)
    && (forall b, n :: b in batch && 0 <= n < |s.actions| && Blocks(s, b, n) ==> b < n)
  }

  lemma OutsideBefore(s: State, t: State, key: Key, batch: seq<nat>, n: nat)
    requires Enters(s, t, key, batch) && n < |s.actions|
    ensures Outside(t, n) <==> Outside(s, n) && n !in batch
    ensures t.actions[n].key == s.actions[n].key && t.actions[n].IsUpload() == s.actions[n].IsUpload()
    ensures t.actions[n].status.Waiting() == s.actions[n].status.Waiting()
      && t.actions[n].readyAt == s.actions[n].readyAt
  {
  }

  lemma EntersKeepsOrder(s: State, t: State, key: Key, batch: seq<nat>)
    requires Ordered(s) && Enters(s, t, key, batch)
    ensures Ordered(t)
  {
    forall n | 0 <= n < |s.actions|
      ensures Outside(t, n) <==> Outside(s, n) && n !in batch
      ensures t.actions[n].key == s.actions[n].key && t.actions[n].IsUpload() == s.actions[n].IsUpload()
      ensures t.actions[n].status.Waiting() == s.actions[n].status.Waiting()
        && t.actions[n].readyAt == s.actions[n].readyAt
    {
      OutsideBefore(s, t, key, batch, n);
    }
    assert forall e :: e in t.entered <==> e in s.entered || e in batch;
    LogAscends(s, t, key, batch);
    hide Enters;
    forall e, n | e in t.entered && 0 <= n < |t.actions| && Outside(t, n) && SameLane(t, e, n) ensures e < n {
      assert SameLane(s, e, n) && Outside(s, n);
    }
    forall e, n | e in t.entered && 0 <= n < |t.actions| && Blocks(t, e, n) ensures e < n {
      assert Blocks(s, e, n);
    }
  }

  lemma LogAscends(s: State, t: State, key: Key, batch: seq<nat>)
    requires Ordered(s) && Enters(s, t, key, batch)
    ensures EnteredAreActions(t)
    ensures forall i, j :: 0 <= i < j < |t.entered| && SameLane(t, t.entered[i], t.entered[j]) ==>
      t.entered[i] < t.entered[j]
  {
    forall e | e in t.entered ensures e < |t.actions| && t.actions[e].status in {Applying, Done, Failed, Undone} {
      assert e in s.entered || e in batch;
    }
    forall i, j | 0 <= i < j < |t.entered| && SameLane(t, t.entered[i], t.entered[j])
      ensures t.entered[i] < t.entered[j]
    {
      var a, b := t.entered[i], t.entered[j];
      assert SameLane(s, a, b);
      if j < |s.entered| {
        assert a == s.entered[i] && b == s.entered[j];
      } else if i < |s.entered| {
        assert a in s.entered && b in batch;
      } else {
        assert a == batch[i - |s.entered|] && b == batch[j - |s.entered|];
      }
    }
  }

  lemma CollectedEnters(s: State, key: Key)
    requires Registry(s)
    ensures Collected(s, key) != s ==> Enters(s, Collected(s, key), key, ReadyBatch(s, key))
  {
    hide BatchBelow, SameLane, Outside, Blocks, Registry, Batchable, ReadyBatch;
    var t := Collected(s, key);
    var batch := ReadyBatch(s, key);
    if t != s {
      forall b | b in batch ensures b < |s.actions| && Outside(s, b) && s.actions[b].key == key {
        BatchIsOutside(s, key, b);
      }
      forall b, n | b in batch && 0 <= n < |s.actions| && Outside(s, n) && SameLane(s, b, n) && n !in batch
        ensures b < n
      {
        BatchTakesAll(s, key, b, n);
      }
      forall b, n | b in batch && 0 <= n < |s.actions| && Blocks(s, b, n) ensures b < n {
        BlockedIsLater(s, key, b, n);
      }
    }
  }

  lemma BatchIsOutside(s: State, key: Key, b: nat)
    requires Registry(s) && b in ReadyBatch(s, key)
    ensures b < |s.actions| && Outside(s, b) && s.actions[b].key == key
  {
    assert Batchable(s, key, b);
  }

  lemma BlockedIsLater(s: State, key: Key, b: nat, n: nat)
    requires Registry(s) && b in ReadyBatch(s, key) && Blocks(s, b, n)
    ensures b < n
  {
    assert Batchable(s, key, b) && Pending(s, key, n);
  }

  /** A batch leaves out no earlier action of the same lane. */
  lemma BatchTakesAll(s: State, key: Key, b: nat, n: nat)
    requires Registry(s) && b in ReadyBatch(s, key) && Outside(s, n) && SameLane(s, b, n)
    ensures b < n || n in ReadyBatch(s, key)
  {
    assert Batchable(s, key, b) && Pending(s, key, n);
    if n <= b { assert Batchable(s, key, n); }
  }

  // ---- Step by step ----

  lemma NextEntered(s: State, e: Event)
    requires Sane(s) && !e.WorkerCollect?
    ensures Next(s, e).entered == s.entered && s.now <= Next(s, e).now
  {
    hide Next, EndsAs, Registered;
    if IsSubmission(e) {
      if Next(s, e) != s { SubmissionRegisters(s, e); RegisteredEntered(s, e.key, Submission(e), e.session); }
    } else if e.WorkerDone? {
      if e.key in s.workers && s.workers[e.key].Writing? {
        var ending := DoneEnds(s, e.key, e.call);
        EndingTouches(s, e.key, s.workers[e.key].batch, ending, Next(s, e));
      } else {
        DoneIgnored(s, e.key, e.call);
      }
    } else {
      NextClock(s, e);
      OtherEntered(s, e);
    }
  }

  lemma RegisteredEntered(s: State, key: Key, ops: seq<Op>, session: Session)
    requires StoreFits(s)
    ensures Registered(s, key, ops, session).entered == s.entered && Registered(s, key, ops, session).now == s.now
  {
  }

  lemma OtherEntered(s: State, e: Event)
    requires Sane(s) && !e.WorkerCollect? && !IsSubmission(e) && !e.WorkerDone?
    ensures Next(s, e).entered == s.entered
  {
    hide BatchBelow, DeadlineBelow, Lookup, ResetBelow;
  }

  lemma NextOrdered(s: State, e: Event)
    requires Inv(s) && Sane(s) && Ordered(s)
    ensures Ordered(Next(s, e))
  {
    hide Next, Inv, Ordered, ActionSteps, Enters, Registry;
    InvHasRegistry(s);
    if e.WorkerCollect? {
      NextIsCollected(s, e.key);
      CollectedEnters(s, e.key);
      if Next(s, e) != s { EntersKeepsOrder(s, Next(s, e), e.key, ReadyBatch(s, e.key)); }
    } else {
      NextSteps(s, e);
      NextEntered(s, e);
      OrderedFollows(s, Next(s, e));
    }
  }

  lemma InvHasRegistry(s: State)
    requires Inv(s)
    ensures Registry(s) && Workers(s) && Runs(s)
  {
  }
}
