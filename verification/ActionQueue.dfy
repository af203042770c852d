/** `UndoStore` (app/undo.py) and `ActionQueue` (app/actions.py) as objects that change in place. Each method is one
    block under the queue's condition, and is proved to be one step of the machine in `Queue`. */
module ActionQueues {
  import opened Lists
  import opened Planner
  import opened UndoSteps
  import opened CloudWrite
  import opened CloudLaws
  import opened Queue
  import opened QueueInvariants
  import opened QueueSteps
  import opened QueueGrants
  import opened QueueRuns

  // ---- Loops over the store ----

  ghost predicate Distinct(xs: seq<nat>) {
    forall i, j :: 0 <= i < j < |xs| ==> xs[i] != xs[j]
  }

  lemma {:induction false} KeptDistinct(groups: seq<Group>, entries: seq<nat>, key: Key, now: real)
    requires Distinct(entries) && forall g :: g in entries ==> g < |groups|
    ensures Distinct(Kept(groups, entries, key, now))
  {
    if entries != [] {
      assert forall g :: g in entries[1..] ==> g in entries;
      KeptDistinct(groups, entries[1..], key, now);
    }
  }

  lemma InvalidateOneMore(groups: seq<Group>, which: set<nat>, g: nat)
    requires g < |groups|
    ensures InvalidateAll(groups, which)[g := InvalidateAll(groups, which)[g].Invalidated()]
            == InvalidateAll(groups, which + {g})
  {
  }

  /** The first `i` entries are sorted into those kept and those invalidated. */
  ghost predicate Sifted(was: seq<Group>, entries: seq<nat>, i: nat, key: Key, now: real, kept: seq<nat>,
                         groups: seq<Group>)
  {
    && i <= |entries| && (forall g :: g in entries ==> g < |was|)
    && (forall g :: g in entries[i..] ==> g in entries)
    && (forall g :: g in kept ==> g in entries[..i])
    && Kept(was, entries, key, now) == kept + Kept(was, entries[i..], key, now)
    && groups == InvalidateAll(was, ToSet(entries[..i]) - ToSet(kept))
  }

  lemma SiftStart(was: seq<Group>, entries: seq<nat>, key: Key, now: real)
    requires forall g :: g in entries ==> g < |was|
    ensures Sifted(was, entries, 0, key, now, [], was)
  {
    assert entries[0..] == entries && [] + Kept(was, entries, key, now) == Kept(was, entries, key, now);
    assert was == InvalidateAll(was, {});
  }

  lemma SiftOne(was: seq<Group>, entries: seq<nat>, i: nat, key: Key, now: real, kept: seq<nat>, groups: seq<Group>)
    requires Sifted(was, entries, i, key, now, kept, groups) && i < |entries| && Distinct(entries)
    ensures entries[i] < |was| == |groups| && groups[entries[i]] == was[entries[i]]
    ensures if was[entries[i]].key != key && now < was[entries[i]].deadline
            then Sifted(was, entries, i + 1, key, now, kept + [entries[i]], groups)
            else Sifted(was, entries, i + 1, key, now, kept, groups[entries[i] := groups[entries[i]].Invalidated()])
  {
    hide Kept, InvalidateAll, ToSet;
    var g := entries[i];
    assert entries[i..][0] == g && entries[i..][1..] == entries[i + 1..];
    KeptHead(was, entries[i..], key, now);
    var gone := ToSet(entries[..i]) - ToSet(kept);
    assert entries[..i + 1] == entries[..i] + [g] && g in entries && g !in gone;
    var rest := Kept(was, entries[i + 1..], key, now);
    if was[g].key != key && now < was[g].deadline {
      assert kept + ([g] + rest) == kept + [g] + rest;
      GoneSame(entries, i, kept);
    } else {
      InvalidateOneMore(was, gone, g);
      GoneMore(entries, i, kept);
    }
  }

  lemma {:induction false} KeptHead(groups: seq<Group>, entries: seq<nat>, key: Key, now: real)
    requires entries != [] && forall g :: g in entries ==> g < |groups|
    ensures entries[0] in entries && forall g :: g in entries[1..] ==> g in entries
    ensures var rest := Kept(groups, entries[1..], key, now);
      Kept(groups, entries, key, now)
        == if groups[entries[0]].key != key && now < groups[entries[0]].deadline then [entries[0]] + rest else rest
  {
  }

  lemma GoneSame(entries: seq<nat>, i: nat, kept: seq<nat>)
    requires i < |entries| && Distinct(entries)
    ensures ToSet(entries[..i + 1]) - ToSet(kept + [entries[i]]) == ToSet(entries[..i]) - ToSet(kept)
  {
    assert entries[..i + 1] == entries[..i] + [entries[i]];
    assert entries[i] !in entries[..i];
  }

  lemma GoneMore(entries: seq<nat>, i: nat, kept: seq<nat>)
    requires i < |entries| && Distinct(entries) && forall g :: g in kept ==> g in entries[..i]
    ensures ToSet(entries[..i + 1]) - ToSet(kept) == ToSet(entries[..i]) - ToSet(kept) + {entries[i]}
  {
    assert entries[..i + 1] == entries[..i] + [entries[i]];
    assert entries[i] !in entries[..i];
  }

  lemma {:induction false} SiftEnd(was: seq<Group>, entries: seq<nat>, key: Key, now: real, kept: seq<nat>,
                                   groups: seq<Group>)
    requires Sifted(was, entries, |entries|, key, now, kept, groups)
    ensures kept == Kept(was, entries, key, now) && groups == InvalidateAll(was, ToSet(entries) - ToSet(kept))
  {
    assert entries[|entries|..] == [] && kept + [] == kept && entries[..|entries|] == entries;
  }

  lemma {:induction false} NotGranted(s: State, group: Group, batch: seq<nat>, receipt: UndoReceipt, indices: seq<nat>,
                                      i: nat)
    requires |receipt.steps| == |batch| && |indices| == |group.actions| && i < |indices|
    requires forall j :: 0 <= j < |indices| ==>
      group.actions[j] in batch && indices[j] == IndexOf(batch, group.actions[j])
    requires indices[i] < |receipt.steps| && receipt.steps[indices[i]].None?
    ensures Granted(s, group, batch, Some(receipt)) == group.Invalidated()
  {
    hide IndexOf;
    if forall n :: n in group.actions ==> n in batch && n < |s.actions| && s.actions[n].status == Done {
      var own := seq(|group.actions|, j requires 0 <= j < |group.actions| =>
        assert group.actions[j] in group.actions; IndexOf(batch, group.actions[j]));
      assert own[i] == indices[i];
    }
  }

  lemma {:induction false} GrantedHere(s: State, group: Group, batch: seq<nat>, receipt: UndoReceipt, indices: seq<nat>)
    requires |receipt.steps| == |batch| && |indices| == |group.actions|
    requires forall n :: n in group.actions ==> n in batch && n < |s.actions| && s.actions[n].status == Done
    requires forall j :: 0 <= j < |indices| ==>
      group.actions[j] in batch && indices[j] == IndexOf(batch, group.actions[j])
    requires forall j :: 0 <= j < |indices| ==> indices[j] < |receipt.steps| && receipt.steps[indices[j]].Some?
    ensures Granted(s, group, batch, Some(receipt))
            == group.(receipt := Some(receipt), indices := indices, deadline := s.now + UNDO_TTL)
  {
    hide IndexOf;
    var own := seq(|group.actions|, j requires 0 <= j < |group.actions| =>
      assert group.actions[j] in group.actions; IndexOf(batch, group.actions[j]));
    assert own == indices;
  }

  /** `UndoStore`: the newest undoable submission per Tonie. Group objects are numbered in `groups`. */
  class UndoStore {
    var groups: seq<Group>
    var latest: seq<nat>

    ghost predicate Fits()
      reads this
    {
      forall g :: g in latest ==> g < |groups|
    }

    constructor ()
      ensures groups == [] && latest == []
    {
      groups, latest := [], [];
    }

    method Invalidate(g: nat)
      requires g < |groups|
      modifies this`groups
      ensures groups == old(groups)[g := old(groups)[g].Invalidated()]
    {
      groups := groups[g := groups[g].Invalidated()];
    }

    /** `latest.get(key)` */
    method Get(key: Key) returns (r: Option<nat>)
      requires Fits()
      ensures r == Lookup(groups, latest, key)
    {
      var i := 0;
      assert latest[0..] == latest;
      while i < |latest|
        invariant 0 <= i <= |latest| && Fits()
        invariant forall g :: g in latest[i..] ==> g in latest
        invariant Lookup(groups, latest, key) == Lookup(groups, latest[i..], key)
      {
        assert latest[i..][0] == latest[i] && latest[i..][1..] == latest[i + 1..] && latest[i] in latest;
        if groups[latest[i]].key == key {
          return Some(latest[i]);
        }
        i := i + 1;
      }
      return None;
    }

    /** Drop the Tonie's old submission and every expired one. */
    method DropStale(key: Key, now: real)
      requires Fits() && Distinct(latest)
      modifies this
      ensures latest == Kept(old(groups), old(latest), key, now)
      ensures groups == InvalidateAll(old(groups), ToSet(old(latest)) - ToSet(latest))
    {
      hide Kept, InvalidateAll, Sifted;
      ghost var was := groups;
      var entries := latest;
      latest := [];
      var i := 0;
      SiftStart(was, entries, key, now);
      while i < |entries|
        invariant 0 <= i <= |entries| && |groups| == |was| && Distinct(entries)
        invariant forall g :: g in entries ==> g < |was|
        invariant Sifted(was, entries, i, key, now, latest, groups)
      {
        SiftOne(was, entries, i, key, now, latest, groups);
        assert entries[i] in entries;
        if groups[entries[i]].key == key || now >= groups[entries[i]].deadline {
          Invalidate(entries[i]);
        } else {
          latest := latest + [entries[i]];
        }
        i := i + 1;
      }
      SiftEnd(was, entries, key, now, latest, groups);
    }

    /** Leave room for one more entry, oldest out first. */
    method Evict()
      requires Fits() && Distinct(latest)
      modifies this
      ensures latest == Newest(old(latest))
      ensures groups == InvalidateAll(old(groups), ToSet(old(latest)) - ToSet(latest))
    {
      ghost var was, entries, k := groups, latest, 0;
      while |latest| >= MAX_UNDO_TARGETS
        invariant k <= |entries| && latest == entries[k..]
        invariant k > 0 ==> |latest| >= MAX_UNDO_TARGETS - 1
        invariant groups == InvalidateAll(was, ToSet(entries[..k]))
      {
        assert entries[..k + 1] == entries[..k] + [entries[k]] && entries[k] in entries;
        InvalidateOneMore(was, ToSet(entries[..k]), entries[k]);
        assert ToSet(entries[..k + 1]) == ToSet(entries[..k]) + {entries[k]};
        Invalidate(latest[0]);
        latest := latest[1..];
        k := k + 1;
      }
      assert ToSet(entries) - ToSet(entries[k..]) == ToSet(entries[..k]);
    }

    /** `register`: only the newest submissions of other Tonies stay beside the new one. */
    method Register(group: Group, now: real)
      requires Fits() && Distinct(latest)
      modifies this
      ensures var kept := Newest(Kept(old(groups), old(latest), group.key, now));
        && latest == kept + [|old(groups)|]
        && groups == InvalidateAll(old(groups), ToSet(old(latest)) - ToSet(kept)) + [group]
    {
      DropStale(group.key, now);
      KeptDistinct(old(groups), old(latest), group.key, now);
      ghost var kept := latest;
      Evict();
      assert groups == InvalidateAll(old(groups), ToSet(old(latest)) - ToSet(latest));
      groups, latest := groups + [group], latest + [|groups|];
    }

    /** `clear` */
    method Clear()
      requires Fits()
      modifies this
      ensures latest == [] && groups == InvalidateAll(old(groups), ToSet(old(latest)))
    {
      var i := 0;
      while i < |latest|
        invariant 0 <= i <= |latest| && latest == old(latest)
        invariant groups == InvalidateAll(old(groups), ToSet(latest[..i]))
      {
        assert latest[..i + 1] == latest[..i] + [latest[i]] && latest[i] in latest;
        Invalidate(latest[i]);
        i := i + 1;
      }
      assert latest[..i] == latest;
      latest := [];
    }

    /** `available`: an expired group is invalidated on the way. */
    method Available(g: nat, now: real, closed: set<Session>) returns (r: bool)
      requires g < |groups|
      modifies this`groups
      ensures groups == old(groups)[g := old(groups)[g].Touched(now, closed)]
      ensures r == old(groups)[g].Available(now, closed)
    {
      if now >= groups[g].deadline || groups[g].owner in closed {
        Invalidate(g);
      }
      r := groups[g].active && (groups[g].pending || groups[g].receipt.Some?);
    }

    /** `take`: consume the capability before anything remote happens, or refuse and end what has run out. */
    method Take(ghost s: State, actions: seq<Action>, action: nat, owner: Session, now: real, closed: set<Session>)
      returns (taken: Option<nat>, receipt: Option<UndoReceipt>)
      requires StoreFits(s) && s.groups == groups && s.latest == latest
      requires s.actions == actions && s.now == now && s.closed == closed && action < |actions| && action in s.listed
      requires forall g, n :: 0 <= g < |groups| && n in groups[g].actions ==> n < |actions|
      modifies this`groups
      ensures taken.Some? <==> CanTake(s, action, owner)
      ensures taken.Some? ==> Some(taken.value) == Lookup(s.groups, latest, actions[action].key)
      ensures taken.Some? ==>
        groups == InvalidateAll(s.groups, {taken.value}) && receipt == s.groups[taken.value].receipt
      ensures taken.None? ==> groups == AfterRefusal(s, action).groups
    {
      taken, receipt := None, None;
      var found := Get(actions[action].key);
      if found.None? || action !in groups[found.value].actions {
        return;
      }
      var g := found.value;
      var available := Available(g, now, closed);
      if !available {
        return;
      }
      if groups[g].owner != owner {
        Invalidate(g);
        return;
      }
      var queued := AllQueued(actions, groups[g].actions);
      if groups[g].pending && !queued {
        Invalidate(g);
        return;
      }
      receipt := groups[g].receipt;
      Invalidate(g);
      taken := Some(g);
    }

    static method AllQueued(actions: seq<Action>, numbers: seq<nat>) returns (r: bool)
      requires forall n :: n in numbers ==> n < |actions|
      ensures r <==> forall n :: n in numbers ==> n < |actions| && actions[n].status == Queued
    {
      var i := 0;
      while i < |numbers|
        invariant 0 <= i <= |numbers|
        invariant forall n :: n in numbers[..i] ==> n < |actions| && actions[n].status == Queued
      {
        assert numbers[i] in numbers && numbers[..i + 1] == numbers[..i] + [numbers[i]];
        if actions[numbers[i]].status != Queued {
          return false;
        }
        i := i + 1;
      }
      return true;
    }

    /** Whether every action of the submission is done and in the batch. */
    static method AllDoneIn(actions: seq<Action>, numbers: seq<nat>, batch: seq<nat>) returns (r: bool)
      ensures r <==> !(exists n :: n in numbers && !(n in batch && n < |actions| && actions[n].status == Done))
    {
      var i := 0;
      while i < |numbers|
        invariant 0 <= i <= |numbers|
        invariant forall n :: n in numbers[..i] ==> n in batch && n < |actions| && actions[n].status == Done
      {
        if numbers[i] !in batch || numbers[i] >= |actions| || actions[numbers[i]].status != Done {
          assert numbers[i] in numbers;
          return false;
        }
        i := i + 1;
        assert numbers[..i] == numbers[..i - 1] + [numbers[i - 1]];
      }
      assert numbers[..i] == numbers;
      return true;
    }

    /** Where in the batch each action of the group is. */
    static method Indices(numbers: seq<nat>, batch: seq<nat>) returns (r: seq<nat>)
      requires forall n :: n in numbers ==> n in batch
      ensures |r| == |numbers| && forall i :: 0 <= i < |r| ==> numbers[i] in batch && r[i] == IndexOf(batch, numbers[i])
    {
      r := [];
      while |r| < |numbers|
        invariant |r| <= |numbers|
        invariant forall i :: 0 <= i < |r| ==> numbers[i] in batch && r[i] == IndexOf(batch, numbers[i])
      {
        assert numbers[|r|] in numbers;
        r := r + [IndexOf(batch, numbers[|r|])];
      }
    }

    /** `complete`: the latest submission of the Tonie gets a receipt, loses its capability, or must wait. */
    method Complete(ghost s: State, actions: seq<Action>, key: Key, batch: seq<nat>, receipt: Option<UndoReceipt>,
                    hasPending: bool, now: real)
      requires StoreFits(s) && s.groups == groups && s.latest == latest && s.actions == actions && s.now == now
      requires receipt.Some? ==> |receipt.value.steps| == |batch|
      requires hasPending == HasPending(s, key)
      modifies this`groups
      ensures groups == Completed(s, key, batch, receipt).groups
    {
      hide IndexOf;
      var found := Get(key);
      if found.None? || !groups[found.value].active || hasPending {
        return;
      }
      var g := found.value;
      var group := groups[g].(pending := false);
      groups := groups[g := group];
      var allDone := AllDoneIn(actions, group.actions, batch);
      if receipt.None? || !allDone {
        Invalidate(g);
        return;
      }
      var indices := Indices(group.actions, batch);
      var i := 0;
      while i < |indices|
        invariant 0 <= i <= |indices| && |indices| == |group.actions|
        invariant forall j :: 0 <= j < |indices| ==>
          group.actions[j] in batch && indices[j] == IndexOf(batch, group.actions[j])
        invariant forall j :: 0 <= j < i ==> receipt.value.steps[indices[j]].Some?
        invariant groups == s.groups[g := group]
      {
        if receipt.value.steps[indices[i]].None? {
          NotGranted(s, group, batch, receipt.value, indices, i);
          Invalidate(g);
          return;
        }
        i := i + 1;
      }
      GrantedHere(s, group, batch, receipt.value, indices);
      groups := groups[g := group.(receipt := receipt, indices := indices, deadline := now + UNDO_TTL)];
    }
  }

  // ---- Loops over the actions ----

  lemma {:induction false} DeferredEndsBatch(s: State, key: Key, n: nat, bound: nat)
    requires n < bound && Pending(s, key, n) && s.actions[n].readyAt > s.now
    ensures BatchBelow(s, key, bound) == BatchBelow(s, key, n)
  {
    if bound > n + 1 { DeferredEndsBatch(s, key, n, bound - 1); }
  }

  lemma {:induction false} UndoingEndsBatch(s: State, key: Key, bound: nat)
    requires key in s.undoing
    ensures BatchBelow(s, key, bound) == []
  {
    if bound > 0 { UndoingEndsBatch(s, key, bound - 1); }
  }

  /** What the scan of `_ready_batch` knows after the first `n` actions. */
  ghost predicate Scanned(s: State, key: Key, n: nat, uploadBlocked: bool) {
    && (forall m: nat :: m < n && Pending(s, key, m) ==> s.actions[m].readyAt <= s.now)
    && (uploadBlocked
        <==> exists m: nat :: m < n && Pending(s, key, m) && s.actions[m].IsUpload() && s.actions[m].status != Ready)
  }

  lemma ScanOne(s: State, key: Key, n: nat, uploadBlocked: bool)
    requires key !in s.undoing && n < |s.actions| && Scanned(s, key, n, uploadBlocked)
    requires Pending(s, key, n) ==> s.actions[n].readyAt <= s.now
    ensures Batchable(s, key, n) <==>
      && Pending(s, key, n)
      && if s.actions[n].IsUpload() then s.actions[n].status == Ready && !uploadBlocked
         else s.actions[n].status == Queued
    ensures Scanned(s, key, n + 1,
      uploadBlocked || (Pending(s, key, n) && s.actions[n].IsUpload() && s.actions[n].status != Ready))
  {
  }

  lemma {:induction false} EmptyScan(s: State, key: Key)
    ensures BatchBelow(s, key, 0) == [] && Scanned(s, key, 0, false)
  {
  }

  lemma BatchOne(s: State, key: Key, n: nat)
    ensures BatchBelow(s, key, n + 1) == BatchBelow(s, key, n) + (if Batchable(s, key, n) then [n] else [])
  {
  }

  lemma FinishOneMore(actions: seq<Action>, batch: seq<nat>, results: seq<OpResult>, i: nat)
    requires Ascends(batch) && |results| == |batch| && i < |batch| && batch[i] < |actions|
    ensures var r := FinishAll(actions, batch[..i], results[..i]);
      FinishAll(actions, batch[..i + 1], results[..i + 1])
        == r[batch[i] := Settled(r[batch[i]], Outcome(results[i].error.Some?))]
  {
    hide IndexOf;
    assert batch[..i + 1] == batch[..i] + [batch[i]] && batch[i] !in batch[..i];
    forall n | n in batch[..i + 1]
      ensures n in batch && IndexOf(batch[..i + 1], n) < |batch| && batch[IndexOf(batch[..i + 1], n)] == n
      ensures n != batch[i] ==> n in batch[..i] && IndexOf(batch[..i], n) == IndexOf(batch[..i + 1], n)
    {
      var p, q := IndexOf(batch[..i + 1], n), IndexOf(batch[..i + 1], n);
      assert batch[..i + 1][p] == n == batch[p];
      if n != batch[i] {
        assert batch[..i][IndexOf(batch[..i], n)] == n;
      }
    }
    IndexIs(batch[..i + 1], i);
  }

  lemma NothingFinished(actions: seq<Action>, batch: seq<nat>, results: seq<OpResult>)
    requires |results| == |batch|
    ensures FinishAll(actions, batch[..0], results[..0]) == actions
  {
  }

  lemma CompletedChangesGroups(s: State, key: Key, batch: seq<nat>, receipt: Option<UndoReceipt>)
    requires StoreFits(s) && (receipt.Some? ==> |receipt.value.steps| == |batch|)
    ensures Completed(s, key, batch, receipt) == s.(groups := Completed(s, key, batch, receipt).groups)
  {
    hide Lookup, Granted, HasPending;
  }

  /** The submissions of the first `i` actions of a batch are invalidated. */
  ghost predicate Invalidated(s: State, batch: seq<nat>, i: nat, groups: seq<Group>) {
    && i <= |batch| && ValidNumbers(s, batch)
    && groups == InvalidateAll(s.groups, set j | 0 <= j < i && batch[j] < |s.actions| :: s.actions[batch[j]].group)
  }

  lemma InvalidatedNone(s: State, batch: seq<nat>)
    requires ValidNumbers(s, batch)
    ensures Invalidated(s, batch, 0, s.groups)
  {
    assert s.groups == InvalidateAll(s.groups, {});
  }

  lemma InvalidatedOneMore(s: State, batch: seq<nat>, i: nat, groups: seq<Group>)
    requires Invalidated(s, batch, i, groups) && i < |batch|
    ensures batch[i] in batch && |groups| == |s.groups|
    ensures var g := s.actions[batch[i]].group; Invalidated(s, batch, i + 1, groups[g := groups[g].Invalidated()])
  {
    hide InvalidateAll;
    assert batch[i] in batch;
    var g := s.actions[batch[i]].group;
    var some := set j | 0 <= j < i && batch[j] < |s.actions| :: s.actions[batch[j]].group;
    InvalidateOneMore(s.groups, some, g);
    assert (set j | 0 <= j < i + 1 && batch[j] < |s.actions| :: s.actions[batch[j]].group) == some + {g};
  }

  lemma InvalidatedBatch(s: State, batch: seq<nat>, groups: seq<Group>)
    requires Invalidated(s, batch, |batch|, groups)
    ensures groups == InvalidateAll(s.groups, set n | n in batch :: s.actions[n].group)
  {
    assert (set j | 0 <= j < |batch| && batch[j] < |s.actions| :: s.actions[batch[j]].group)
        == set n | n in batch :: s.actions[n].group;
  }

  lemma LatestDistinct(s: State)
    requires Inv(s)
    ensures StoreFits(s) && Distinct(s.latest)
  {
  }

  ghost predicate GroupsFit(s: State) {
    forall k :: 0 <= k < |s.actions| ==> s.actions[k].group < |s.groups|
  }

  lemma ValidParts(s: State)
    requires Inv(s)
    ensures Sane(s) && StoreFits(s) && GroupsFit(s)
    ensures forall g, n :: 0 <= g < |s.groups| && n in s.groups[g].actions ==> n < |s.actions|
    ensures forall i :: 0 <= i < |s.runs| ==> s.runs[i].group < |s.groups|
  {
    hide Registry, Workers, Deferral, Quiet;
    InvIsSane(s);
    forall g, n | 0 <= g < |s.groups| && n in s.groups[g].actions ensures n < |s.actions| {
      assert Owned(s, g, n);
    }
  }

  lemma ValidBatch(s: State, key: Key)
    requires Inv(s) && key in s.workers && s.workers[key].Writing?
    ensures ValidNumbers(s, s.workers[key].batch) && Ascends(s.workers[key].batch)
    ensures forall n :: n in s.workers[key].batch ==> n < |s.actions|
  {
    hide Shape, Store, Registry, Deferral, Quiet, Runs;
    InvIsSane(s);
    assert WritesBatch(s, key, s.workers[key].batch);
  }

  /** A refused `take` changes nothing but the store; an action that is not listed is always refused. */
  lemma RefusalChangesGroups(s: State, n: nat, session: Session)
    requires StoreFits(s)
    ensures AfterRefusal(s, n) == s.(groups := AfterRefusal(s, n).groups)
    ensures n !in s.listed || n >= |s.actions| ==> !CanTake(s, n, session) && AfterRefusal(s, n) == s
  {
    hide Lookup, InvalidateAll;
  }

  lemma TookIs(s: State, n: nat, session: Session, g: nat)
    requires StoreFits(s) && CanTake(s, n, session) && Some(g) == Lookup(s.groups, s.latest, s.actions[n].key)
    ensures g < |s.groups| && n < |s.actions|
    ensures Took(s, n, session) == s.(
      groups := InvalidateAll(s.groups, {g}),
      undoing := s.undoing + {s.actions[n].key},
      actions := if s.groups[g].pending then SettleAll(s.actions, s.groups[g].actions, Canceled) else s.actions,
      runs := s.runs + [UndoRun(s.actions[n].key, g, s.groups[g].receipt,
                                if s.groups[g].receipt.Some? then Remote else Recorded)])
  {
    hide Lookup, InvalidateAll, SettleAll;
  }

  // ---- Each block keeps the queue's invariant ----

  lemma SubmitKeeps(s: State, key: Key, ops: seq<Op>, session: Session)
    requires Inv(s)
    ensures StoreFits(s) && Inv(Submitted(s, key, ops, session))
  {
    hide Inv, Sane, Submitted;
    ValidParts(s);
    NextInv(s, Event.Submit(key, ops, session));
  }

  lemma UploadKeeps(s: State, key: Key, title: string, position: Position, session: Session)
    requires Inv(s)
    ensures StoreFits(s) && Inv(UploadSubmitted(s, key, title, position, session))
  {
    hide Inv, Sane, UploadSubmitted;
    ValidParts(s);
    NextInv(s, Event.SubmitUpload(key, title, position, session));
  }

  lemma CancelKeeps(s: State, n: nat)
    requires Inv(s)
    ensures GroupsFit(s) && Inv(Cancelled(s, n))
  {
    hide Inv, Sane, Cancelled;
    ValidParts(s);
    NextInv(s, Event.Cancel(n));
  }

  lemma UndoRecordKeeps(s: State, run: nat, cloud: UndoCloud)
    requires Inv(s)
    ensures Inv(UndoRecorded(s, run, InverseDone(s, run, cloud)))
  {
    hide Inv, Sane, UndoRecorded;
    ValidParts(s);
    NextInv(s, Event.UndoRecord(run, cloud));
  }

  lemma UndoFinishKeeps(s: State, run: nat)
    requires Inv(s)
    ensures Inv(UndoFinished(s, run))
  {
    hide Inv, Sane, UndoFinished;
    ValidParts(s);
    NextInv(s, Event.UndoFinish(run));
  }

  lemma ResetKeeps(s: State)
    requires Inv(s)
    ensures Inv(WasReset(s))
  {
    hide Inv, Sane, WasReset;
    ValidParts(s);
    NextInv(s, Event.Reset);
  }

  lemma ProbeKeeps(s: State, n: nat)
    requires Inv(s)
    ensures GroupsFit(s) && Inv(Probed(s, n))
  {
    hide Inv, Sane, Probed;
    ValidParts(s);
    NextInv(s, Event.Probe(n));
  }

  lemma TransferBeginKeeps(s: State, n: nat)
    requires Inv(s)
    ensures Inv(TransferBegun(s, n))
  {
    hide Inv, Sane, TransferBegun;
    ValidParts(s);
    NextInv(s, Event.TransferBegin(n));
  }

  lemma TransferEndKeeps(s: State, n: nat, prepared: Prepared)
    requires Inv(s)
    ensures Inv(TransferEnded(s, n, prepared))
  {
    hide Inv, Sane, TransferEnded;
    ValidParts(s);
    NextInv(s, Event.TransferEnd(n, prepared));
  }

  lemma LookKeeps(s: State, key: Key, lag: real)
    requires Inv(s)
    ensures Inv(Looked(s, key, lag))
  {
    hide Inv, Sane, Looked;
    ValidParts(s);
    NextInv(s, Event.WorkerLook(key, lag));
  }

  lemma CollectKeeps(s: State, key: Key)
    requires Inv(s)
    ensures Inv(Collected(s, key))
  {
    hide Inv, Sane, Collected;
    ValidParts(s);
    NextInv(s, Event.WorkerCollect(key));
  }

  lemma UndoBeginKeeps(s: State, n: nat, session: Session)
    requires Inv(s)
    ensures StoreFits(s)
    ensures Inv(if CanTake(s, n, session) then Took(s, n, session) else AfterRefusal(s, n))
  {
    hide Inv, Sane, CanTake, Took, AfterRefusal;
    ValidParts(s);
    NextInv(s, Event.UndoBegin(n, session));
  }

  lemma ApplyKeeps(s: State, key: Key, call: ApplyCall)
    requires Inv(s) && key in s.workers && s.workers[key].Writing?
    ensures StoreFits(s) && ValidNumbers(s, s.workers[key].batch) && Inv(Applied(s, key, s.workers[key].batch, call))
  {
    hide Inv, Sane, Applied;
    ValidParts(s);
    ValidBatch(s, key);
    NextInv(s, Event.WorkerDone(key, call));
  }

  lemma ClockKeeps(s: State, elapsed: real)
    requires Inv(s) && elapsed >= 0.0
    ensures Inv(s.(now := s.now + elapsed))
  {
    hide Inv, Sane;
    ValidParts(s);
    NextInv(s, Event.Tick(elapsed));
  }

  lemma CloseKeeps(s: State, session: Session)
    requires Inv(s)
    ensures Inv(s.(closed := s.closed + {session}))
  {
    hide Inv, Sane;
    ValidParts(s);
    NextInv(s, Event.Close(session));
  }

  /** The queue. The threads it coordinates, and what it has written, are ghosts. */
  class ActionQueue {
    const undo: UndoStore
    var now: real
    var actions: seq<Action>
    var listed: set<nat>
    var undoing: set<Key>
    var closed: set<Session>
    ghost var workers: map<Key, Worker>
    ghost var unsent: set<nat>
    ghost var transit: set<nat>
    ghost var runs: seq<UndoRun>
    ghost var entered: seq<nat>
    ghost var lastWrite: map<Key, LastWrite>

    ghost function Model(): State
      reads this, undo
    {
      State(now, actions, listed, undo.groups, undo.latest, undoing, workers, unsent, transit, closed, runs, entered,
            lastWrite)
    }

    ghost predicate Valid()
      reads this, undo
    {
      Inv(Model())
    }

    constructor ()
      ensures Model() == INIT && Valid() && fresh(undo)
    {
      undo := new UndoStore();
      now, actions, listed, undoing, closed := 0.0, [], {}, {}, {};
      workers, unsent, transit, runs, entered, lastWrite := map[], {}, {}, [], [], map[];
      new;
      hide Inv, Holds;
      InitHolds();
      HoldsParts(INIT);
    }

    /** `_set` on each action of a list. */
    method SetEach(which: seq<nat>, status: Status)
      modifies this`actions
      ensures actions == SetAll(old(actions), which, status)
    {
      var i := 0;
      while i < |which|
        invariant 0 <= i <= |which| && |actions| == |old(actions)|
        invariant actions == SetAll(old(actions), which[..i], status)
      {
        assert which[..i + 1] == which[..i] + [which[i]];
        if which[i] < |actions| {
          actions := actions[which[i] := actions[which[i]].(status := status)];
        }
        assert actions == SetAll(old(actions), which[..i + 1], status);
        i := i + 1;
      }
      assert which[..i] == which;
    }

    /** `_cancel`, or `_finish` with one shared outcome, on each action of a list. */
    method SettleEach(which: seq<nat>, status: Status)
      modifies this`actions
      ensures actions == SettleAll(old(actions), which, status)
    {
      var i := 0;
      while i < |which|
        invariant 0 <= i <= |which| && |actions| == |old(actions)|
        invariant actions == SettleAll(old(actions), which[..i], status)
      {
        assert which[..i + 1] == which[..i] + [which[i]];
        if which[i] < |actions| {
          actions := actions[which[i] := Settled(actions[which[i]], status)];
        }
        assert actions == SettleAll(old(actions), which[..i + 1], status);
        i := i + 1;
      }
      assert which[..i] == which;
    }

    static method AllEdits(ops: seq<Op>) returns (r: bool)
      ensures r <==> forall k :: 0 <= k < |ops| ==> IsEdit(ops[k])
    {
      var k := 0;
      while k < |ops|
        invariant 0 <= k <= |ops| && forall j :: 0 <= j < k ==> IsEdit(ops[j])
      {
        if !IsEdit(ops[k]) {
          return false;
        }
        k := k + 1;
      }
      return true;
    }

    /** `submit`: nothing is queued unless every spec is an edit and the session is open. */
    method Submit(key: Key, ops: seq<Op>, session: Session) returns (accepted: bool)
      requires Valid()
      modifies this, undo
      ensures Model() == Submitted(old(Model()), key, ops, session)
      ensures accepted
              <==> ops != [] && key != "" && session !in closed && forall k :: 0 <= k < |ops| ==> IsEdit(ops[k])
      ensures Valid()
    {
      hide Inv;
      SubmitKeeps(old(Model()), key, ops, session);
      var edits := AllEdits(ops);
      if !edits || ops == [] || key == "" || session in closed {
        return false;
      }
      Add(key, ops, session);
      workers := NotifyAll(workers);
      return true;
    }

    method SubmitUpload(key: Key, title: string, position: Position, session: Session) returns (accepted: bool)
      requires Valid()
      modifies this, undo
      ensures Model() == UploadSubmitted(old(Model()), key, title, position, session)
      ensures accepted <==> key != "" && session !in closed
      ensures Valid()
    {
      hide Inv;
      UploadKeeps(old(Model()), key, title, position, session);
      if key == "" || session in closed {
        return false;
      }
      hide Inv, Registered;
      var number := |actions|;
      Add(key, [Attach("", title, 0.0, position)], session);
      unsent := unsent + {number};
      return true;
    }

    /** Whether a submission is deferred: it has a delete, and no clear. */
    static method Defers(ops: seq<Op>) returns (r: bool)
      ensures r == DefersDeletes(ops)
    {
      var deletes, clears := false, false;
      var k := 0;
      while k < |ops|
        invariant 0 <= k <= |ops|
        invariant deletes <==> exists j :: 0 <= j < k && ops[j].Delete?
        invariant clears <==> exists j :: 0 <= j < k && ops[j].Clear?
      {
        deletes, clears := deletes || ops[k].Delete?, clears || ops[k].Clear?;
        k := k + 1;
      }
      return deletes && !clears;
    }

    /** New action objects, their submission, and a worker for the Tonie. */
    method Add(key: Key, ops: seq<Op>, session: Session)
      requires Valid()
      modifies this, undo
      ensures StoreFits(old(Model()))
      ensures Model() == Registered(old(Model()), key, ops, session)
    {
      hide Inv, Kept, Newest, DefersDeletes, InvalidateAll, NewActions, Numbers, ToSet, EnsureWorker, Distinct, Ascends;
      LatestDistinct(Model());
      var pending := Defers(ops);
      var deadline := now + (if pending then DELETE_DELAY else UNDO_TTL);
      var numbers := Numbers(|actions|, |ops|);
      var group := |undo.groups|;
      undo.Register(Group(key, numbers, session, deadline, pending, true, None, []), now);
      actions := actions + NewActions(key, ops, group, session, if pending then deadline else 0.0);
      listed := listed + ToSet(numbers);
      workers := EnsureWorker(workers, key);
    }

    /** `cancel` */
    method Cancel(n: nat) returns (canceled: bool)
      requires Valid()
      modifies this, undo
      ensures forall k :: 0 <= k < |old(actions)| ==> old(actions)[k].group < |old(undo.groups)|
      ensures Model() == Cancelled(old(Model()), n)
      ensures canceled <==> n in old(listed) && n < |old(actions)| && old(actions)[n].status == Queued
      ensures Valid()
    {
      hide Inv, Sane, SettleAll;
      CancelKeeps(old(Model()), n);
      ghost var s := Model();
      ValidParts(s);
      if n !in listed || n >= |actions| || actions[n].status != Queued {
        return false;
      }
      var group := actions[n].group;
      undo.Invalidate(group);
      assert undo.groups == InvalidateAll(s.groups, {group});
      SettleEach([n], Canceled);
      workers := NotifyAll(workers);
      return true;
    }

    /** `_ready_batch` */
    method ReadyBatch(key: Key) returns (batch: seq<nat>)
      ensures batch == Queue.ReadyBatch(Model(), key)
    {
      hide Batchable, BatchBelow;
      batch := [];
      ghost var s := Model();
      if key in undoing {
        UndoingEndsBatch(s, key, |actions|);
        return;
      }
      var n, uploadBlocked := 0, false;
      EmptyScan(s, key);
      while n < |actions|
        invariant 0 <= n <= |actions|
        invariant batch == BatchBelow(s, key, n) && Scanned(s, key, n, uploadBlocked)
      {
        BatchOne(s, key, n);
        var a := actions[n];
        if n in listed && a.key == key && a.status.Waiting() {
          if a.readyAt > now {
            DeferredEndsBatch(s, key, n, |actions|);
            return;
          }
          ScanOne(s, key, n, uploadBlocked);
          if !a.IsUpload() {
            if a.status == Queued {
              batch := batch + [n];
            }
          } else if a.status == Ready && !uploadBlocked {
            batch := batch + [n];
          } else {
            uploadBlocked := true;
          }
        } else {
          ScanOne(s, key, n, uploadBlocked);
        }
        n := n + 1;
      }
    }

    /** The earliest deadline among the deferred actions of a Tonie. */
    method EarliestDeadline(key: Key) returns (r: Option<real>)
      ensures r == DeadlineBelow(Model(), key, |actions|)
    {
      r := None;
      var n := 0;
      while n < |actions|
        invariant 0 <= n <= |actions| && r == DeadlineBelow(Model(), key, n)
      {
        var a := actions[n];
        if n in listed && a.key == key && a.status == Queued && a.readyAt > now && (r.None? || a.readyAt < r.value) {
          r := Some(a.readyAt);
        }
        n := n + 1;
      }
    }

    method AnyPending(key: Key) returns (r: bool)
      ensures r == HasPending(Model(), key)
    {
      var n := 0;
      while n < |actions|
        invariant 0 <= n <= |actions| && forall m :: 0 <= m < n ==> !Pending(Model(), key, m)
      {
        if n in listed && actions[n].key == key && actions[n].status.Waiting() {
          assert Pending(Model(), key, n);
          return true;
        }
        n := n + 1;
      }
      return false;
    }

    /** The finished actions, oldest first. */
    method FinishedActions() returns (finished: seq<nat>)
      ensures finished == FinishedBelow(Model(), |actions|)
    {
      ghost var s := Model();
      finished := [];
      var n := 0;
      while n < |actions|
        invariant 0 <= n <= |actions| && finished == FinishedBelow(s, n)
      {
        if n in listed && !actions[n].status.Waiting() {
          finished := finished + [n];
        }
        n := n + 1;
      }
    }

    method Forget(gone: seq<nat>)
      modifies this`listed
      ensures listed == old(listed) - ToSet(gone)
    {
      var i := 0;
      while i < |gone|
        invariant 0 <= i <= |gone| && listed == old(listed) - ToSet(gone[..i])
      {
        assert gone[..i + 1] == gone[..i] + [gone[i]];
        listed := listed - {gone[i]};
        i := i + 1;
      }
      assert gone[..i] == gone;
    }

    /** `_prune` */
    method Prune()
      modifies this`listed
      ensures Model() == Pruned(old(Model()))
    {
      hide FinishedBelow, ToSet, Surplus;
      var finished := FinishedActions();
      Forget(Surplus(|listed|, finished));
    }

    // ---- Undo ----

    /** The block in which `undo` consumes the capability. */
    method UndoBegin(n: nat, session: Session) returns (began: bool)
      requires Valid()
      modifies this, undo
      ensures Sane(old(Model()))
      ensures began == CanTake(old(Model()), n, session)
      ensures Model() == if began then Took(old(Model()), n, session) else AfterRefusal(old(Model()), n)
      ensures Valid()
    {
      hide Inv, Sane, CanTake, Took, AfterRefusal, SettleAll, InvalidateAll, Lookup;
      UndoBeginKeeps(old(Model()), n, session);
      ghost var s := Model();
      ValidParts(s);
      RefusalChangesGroups(s, n, session);
      if n !in listed || n >= |actions| {
        return false;
      }
      var key := actions[n].key;
      var taken, receipt := undo.Take(s, actions, n, session, now, closed);
      if taken.None? {
        return false;
      }
      TookIs(s, n, session, taken.value);
      undoing := undoing + {key};
      if undo.groups[taken.value].pending {
        SettleEach(undo.groups[taken.value].actions, Canceled);
      }
      runs := runs + [UndoRun(key, taken.value, receipt, if receipt.Some? then Remote else Recorded)];
      return true;
    }

    static method IndicesFit(indices: seq<nat>, count: nat) returns (r: bool)
      ensures r <==> !(exists i :: i in indices && i >= count)
    {
      var j := 0;
      while j < |indices|
        invariant 0 <= j <= |indices| && forall i :: i in indices[..j] ==> i < count
      {
        assert indices[..j + 1] == indices[..j] + [indices[j]];
        if indices[j] >= count {
          assert indices[j] in indices;
          return false;
        }
        j := j + 1;
      }
      assert indices[..j] == indices;
      return true;
    }

    /** The call of `api.undo`, and the block that records its return. Where it raises, the statuses stay. */
    method UndoRecord(ghost run: nat, group: nat, receipt: UndoReceipt, key: Key, cloud: UndoCloud)
      returns (outcome: UndoOutcome)
      requires Valid() && run < |runs| && group < |undo.groups|
      requires runs[run] == UndoRun(key, group, Some(receipt), Remote)
      modifies this
      ensures outcome == InverseOutcome(old(Model()), old(runs)[run], cloud)
      ensures Model() == UndoRecorded(old(Model()), run, Returned(outcome))
      ensures Valid()
    {
      hide Inv, SetAll, UndoResult;
      ghost var s := Model();
      UndoRecordKeeps(s, run, cloud);
      var submission := undo.groups[group];
      var fit := IndicesFit(submission.indices, |receipt.steps|);
      if fit {
        outcome := CloudWrite.Undo(submission.owner, key, receipt, submission.indices, cloud);
      } else {
        outcome := UndoRefused(NotAvailable);
      }
      if Returned(outcome) {
        SetEach(submission.actions, Undone);
      }
      runs := runs[run := runs[run].(phase := Recorded)];
    }

    /** The `finally` block of `undo`. */
    method UndoFinish(ghost run: nat, key: Key)
      requires Valid() && run < |runs| && runs[run].phase.Recorded? && runs[run].key == key
      modifies this
      ensures Model() == UndoFinished(old(Model()), run)
      ensures Valid()
    {
      hide Inv;
      UndoFinishKeeps(old(Model()), run);
      runs := runs[run := runs[run].(phase := Over)];
      undoing := undoing - {key};
      workers := NotifyAll(workers);
    }

    /** `reset` */
    method Reset()
      requires Valid()
      modifies this, undo
      ensures Model() == WasReset(old(Model()))
      ensures Valid()
    {
      hide Inv, Sane, SettleAll, InvalidateAll;
      ResetKeeps(old(Model()));
      ghost var s := Model();
      ValidParts(s);
      undo.Clear();
      var canceled, n := [], 0;
      while n < |actions|
        invariant 0 <= n <= |actions| && canceled == ResetBelow(s, n)
        invariant actions == s.actions && listed == s.listed
        invariant Model() == s.(groups := undo.groups, latest := [])
        invariant undo.groups == InvalidateAll(s.groups, ToSet(s.latest))
      {
        if n in listed && actions[n].status.Waiting() && actions[n].status != Applying {
          canceled := canceled + [n];
        }
        n := n + 1;
      }
      SettleEach(canceled, Canceled);
      workers := NotifyAll(workers);
    }

    /** What `public()` checks while the record of an action is assembled. */
    method Probe(n: nat) returns (available: bool)
      requires Valid() && n < |actions|
      modifies undo
      ensures old(actions)[n].group < |old(undo.groups)|
      ensures forall k :: 0 <= k < |old(actions)| ==> old(actions)[k].group < |old(undo.groups)|
      ensures Model() == Probed(old(Model()), n)
      ensures available == old(undo.groups)[old(actions)[n].group].Available(now, closed)
      ensures Valid()
    {
      hide Inv, Sane;
      ProbeKeeps(old(Model()), n);
      ghost var s := Model();
      ValidParts(s);
      available := undo.Available(actions[n].group, now, closed);
      assert undo.groups == Probed(s, n).groups;
    }

    method Tick(elapsed: real)
      requires Valid() && elapsed >= 0.0
      modifies this`now
      ensures Model() == old(Model()).(now := old(now) + elapsed)
      ensures Valid()
    {
      hide Inv;
      ClockKeeps(old(Model()), elapsed);
      now := now + elapsed;
    }

    method Close(session: Session)
      requires Valid()
      modifies this`closed
      ensures Model() == old(Model()).(closed := old(closed) + {session})
      ensures Valid()
    {
      hide Inv;
      CloseKeeps(old(Model()), session);
      closed := closed + {session};
    }

    // ---- Transfers ----

    /** The first block of `_transfer`. */
    method TransferBegin(n: nat) returns (started: bool)
      requires Valid() && n in unsent && n < |actions|
      modifies this
      ensures Model() == TransferBegun(old(Model()), n)
      ensures started <==> old(actions)[n].status == Queued
      ensures Valid()
    {
      hide Inv, SetAll;
      TransferBeginKeeps(old(Model()), n);
      unsent := unsent - {n};
      if actions[n].status != Queued {
        return false;
      }
      SetEach([n], Transferring);
      transit := transit + {n};
      return true;
    }

    /** The last block of `_transfer`. */
    method TransferEnd(n: nat, prepared: Prepared)
      requires Valid() && n in transit && n < |actions| && actions[n].op.Attach?
      modifies this
      ensures Model() == TransferEnded(old(Model()), n, prepared)
      ensures Valid()
    {
      hide Inv, SettleAll;
      TransferEndKeeps(old(Model()), n, prepared);
      if actions[n].status != Canceled {
        match prepared {
          case Sent(fileId, seconds) =>
            var a := actions[n];
            actions := actions[n := a.(status := Ready, op := a.op.(fileId := fileId, seconds := seconds))];
          case NotSent(text) =>
            SettleEach([n], Outcome(text != ""));
        }
      }
      transit := transit - {n};
      workers := NotifyAll(workers);
    }

    // ---- The worker of one Tonie ----

    /** One round of the waiting loop: found work, or asleep until the earliest deadline read `lag` later. */
    method Look(key: Key, lag: real) returns (found: bool)
      requires Valid() && key in workers && workers[key].Awake? && lag >= 0.0
      modifies this
      ensures Model() == Looked(old(Model()), key, lag)
      ensures found <==> Queue.ReadyBatch(old(Model()), key) != []
      ensures Valid()
    {
      hide Inv, Queue.ReadyBatch, DeadlineBelow;
      LookKeeps(old(Model()), key, lag);
      var batch := ReadyBatch(key);
      if batch != [] {
        workers := workers[key := Collecting];
        return true;
      }
      now := now + lag;
      var until := EarliestDeadline(key);
      workers := workers[key := Asleep(until)];
      return false;
    }

    /** The block after the batch window: take everything that is ready into the write. */
    method Collect(key: Key) returns (batch: seq<nat>)
      requires Valid() && key in workers && workers[key].Collecting?
      modifies this
      ensures Model() == Collected(old(Model()), key) && batch == Queue.ReadyBatch(old(Model()), key)
      ensures Valid()
    {
      hide Inv, Queue.ReadyBatch, SetAll;
      CollectKeeps(old(Model()), key);
      batch := ReadyBatch(key);
      SetEach(batch, Applying);
      entered := entered + batch;
      workers := workers[key := if batch == [] then Awake else Writing(batch)];
    }

    /** `_apply` for a batch that the worker collected. */
    method Apply(key: Key, batch: seq<nat>, call: ApplyCall)
      requires Valid() && key in workers && workers[key] == Writing(batch)
      modifies this, undo
      ensures Sane(old(Model())) && ValidNumbers(old(Model()), batch)
      ensures Model() == Applied(old(Model()), key, batch, call)
      ensures Valid()
    {
      hide Inv, Sane, ApplyOutcome, WriteFailed, WriteReturned;
      ApplyKeeps(old(Model()), key, call);
      ghost var s := Model();
      ValidParts(s);
      ValidBatch(s, key);
      match call {
        case Raised(text) =>
          Fail(key, batch, text == "");
        case Called(session, retitle, cloud) =>
          var same := SameSession(batch, session);
          if !same {
            Fail(key, batch, false);
            return;
          }
          var all := actions;
          var ops := seq(|batch|, i requires 0 <= i < |batch| => assert batch[i] in batch; all[batch[i]].op);
          assert ops == OpsOf(s, batch);
          var outcome := CloudWrite.Apply(session, key, retitle, ops, cloud);
          match outcome {
            case Refused => Fail(key, batch, false);
            case Unconfirmed(_, _) => Fail(key, batch, false);
            case Unchanged(results) => Settle(key, batch, results, None);
            case Written(results, receipt) =>
              var write := Write(session, key, retitle, ops, cloud, results, receipt);
              WriteReports(write);
              Settle(key, batch, results, Some(write));
          }
      }
    }

    method SameSession(batch: seq<nat>, session: Session) returns (r: bool)
      requires forall n :: n in batch ==> n < |actions|
      ensures r <==> !(exists n :: n in batch && actions[n].session != session)
    {
      var i := 0;
      while i < |batch|
        invariant 0 <= i <= |batch|
        invariant forall n :: n in batch[..i] ==> n < |actions| && actions[n].session == session
      {
        assert batch[i] in batch && batch[..i + 1] == batch[..i] + [batch[i]];
        if actions[batch[i]].session != session {
          return false;
        }
        i := i + 1;
      }
      return true;
    }

    /** The whole write failed, or nobody knows whether it happened. */
    method Fail(key: Key, batch: seq<nat>, blank: bool)
      requires ValidNumbers(Model(), batch)
      modifies this, undo
      ensures Model() == WriteFailed(old(Model()), key, batch, blank)
    {
      hide InvalidateAll, SettleAll, Pruned, Invalidated;
      ghost var s := Model();
      var i := 0;
      InvalidatedNone(s, batch);
      while i < |batch|
        invariant 0 <= i <= |batch| && |undo.groups| == |s.groups|
        invariant Model() == s.(groups := undo.groups)
        invariant Invalidated(s, batch, i, undo.groups)
      {
        InvalidatedOneMore(s, batch, i, undo.groups);
        undo.Invalidate(actions[batch[i]].group);
        i := i + 1;
      }
      InvalidatedBatch(s, batch, undo.groups);
      SettleEach(batch, Outcome(!blank));
      workers := workers[key := Awake];
      Prune();
    }

    /** The write returned: finish every action by its result, then settle the undo capability. */
    method Settle(key: Key, batch: seq<nat>, results: seq<OpResult>, write: Option<Write>)
      requires StoreFits(Model()) && |results| == |batch| && Ascends(batch)
      requires forall n :: n in batch ==> n < |actions|
      requires write.Some? ==> |write.value.receipt.steps| == |batch|
      modifies this, undo
      ensures Model() == WriteReturned(old(Model()), key, batch, results, write)
    {
      hide FinishAll, Pruned, HasPending, Completed;
      ghost var s := Model();
      var i := 0;
      assert actions == FinishAll(s.actions, batch[..0], results[..0]) by {
        NothingFinished(s.actions, batch, results);
      }
      while i < |batch|
        invariant 0 <= i <= |batch| && |actions| == |s.actions|
        invariant Model() == s.(actions := actions)
        invariant actions == FinishAll(s.actions, batch[..i], results[..i])
      {
        assert batch[i] in batch;
        FinishOneMore(s.actions, batch, results, i);
        actions := actions[batch[i] := Settled(actions[batch[i]], Outcome(results[i].error.Some?))];
        i := i + 1;
      }
      assert batch[..i] == batch && results[..i] == results;
      workers := workers[key := Awake];
      lastWrite := if write.Some? then lastWrite[key := LastWrite(batch, write.value)] else lastWrite;
      ghost var mid := Model();
      assert mid == Finished(s, key, batch, results, write);
      var hasPending := AnyPending(key);
      var receipt := if write.Some? then Some(write.value.receipt) else None;
      undo.Complete(mid, actions, key, batch, receipt, hasPending, now);
      CompletedChangesGroups(mid, key, batch, receipt);
      Prune();
    }
  }
}
