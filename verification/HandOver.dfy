/** Ordered parallel hand-over (app/attach_order.py, app/job_pipeline.py): jobs download in parallel on one
    first-in-first-out pool, and those of one multi-add hand over in list order. */
module HandOver {
  import opened Lists

  /** `AttachOrder`: one event per job, set when the job has handed over or failed. */
  class AttachOrder {
    const jobs: seq<string>
    var earlier: map<string, seq<string>>
    var handedOver: map<string, bool>

    ghost predicate Valid()
      reads this
    {
      && handedOver.Keys == earlier.Keys && (forall j :: j in jobs <==> j in earlier)
      && (forall i :: 0 <= i < |jobs| ==> jobs[i] in earlier && earlier[jobs[i]] == jobs[..i])
    }

    constructor (jobs: seq<string>)
      requires forall i, j :: 0 <= i < j < |jobs| ==> jobs[i] != jobs[j]
      ensures Valid() && this.jobs == jobs
      ensures forall j :: j in jobs ==> j in handedOver && !handedOver[j]
    {
      this.jobs := jobs;
      earlier, handedOver := map[], map[];
      new;
      var i := 0;
      while i < |jobs|
        invariant 0 <= i <= |jobs|
        invariant forall j :: j in handedOver <==> j in jobs[..i]
        invariant forall j :: j in earlier <==> j in jobs[..i]
        invariant forall j :: j in handedOver ==> !handedOver[j]
        invariant forall k :: 0 <= k < i ==> jobs[k] in earlier && earlier[jobs[k]] == jobs[..k]
      {
        assert jobs[..i + 1] == jobs[..i] + [jobs[i]];
        assert forall k :: 0 <= k < i ==> jobs[k] != jobs[i];
        handedOver := handedOver[jobs[i] := false];
        earlier := earlier[jobs[i] := jobs[..i]];
        i := i + 1;
      }
      assert jobs[..i] == jobs;
    }

    /** `done` */
    method Done(job: string)
      requires Valid() && job in jobs
      modifies this`handedOver
      ensures Valid() && handedOver == old(handedOver)[job := true]
    {
      handedOver := handedOver[job := true];
    }

    /** `wait_turn`. `arrivals[k]` are the jobs that get done while the k-th event is awaited. */
    method WaitTurn(job: string, arrivals: seq<set<string>>) returns (turn: bool)
      requires Valid() && job in jobs && |arrivals| == |jobs|
      requires forall k, j :: 0 <= k < |arrivals| && j in arrivals[k] ==> j in jobs
      modifies this`handedOver
      ensures Valid()
      ensures forall j :: j in jobs && old(handedOver)[j] ==> handedOver[j]
      ensures turn <==> forall e :: e in earlier[job] ==> handedOver[e]
    {
      var before := earlier[job];
      var k := 0;
      while k < |before|
        invariant 0 <= k <= |before| && Valid() && before == earlier[job]
        invariant forall j :: j in jobs && old(handedOver)[j] ==> handedOver[j]
        invariant forall e :: e in before[..k] ==> handedOver[e]
      {
        BeforeIsShort(job);
        handedOver := map j | j in handedOver :: handedOver[j] || j in arrivals[k];
        assert before[k] in before && before[..k + 1] == before[..k] + [before[k]];
        BeforeAreJobs(job);
        if !handedOver[before[k]] {
          return false;
        }
        k := k + 1;
      }
      assert before[..k] == before;
      return true;
    }

    lemma BeforeIsShort(job: string)
      requires Valid() && job in jobs
      ensures |earlier[job]| < |jobs|
    {
      var i :| 0 <= i < |jobs| && jobs[i] == job;
    }

    lemma BeforeAreJobs(job: string)
      requires Valid() && job in jobs
      ensures forall e :: e in earlier[job] ==> e in jobs
    {
      var i :| 0 <= i < |jobs| && jobs[i] == job;
    }
  }

  // ---- The pool ----

  /** Where a job is. `Waiting(seen)` is in `wait_turn`, with `seen` earlier jobs known to be done. */
  datatype Stage = Queued | Downloading | Waiting(seen: nat) | HandingOver | Finishing | Finished

  /** Jobs are numbered in the order they were submitted to the pool; a multi-add submits its own in hand-over order. */
  datatype Job = Job(batch: Option<nat>, stage: Stage)

  /** `handed` logs the uploads queued, in order. */
  datatype Pool = Pool(workers: nat, jobs: seq<Job>, next: nat, handed: seq<nat>)

  datatype Event =
    | Add(batch: Option<nat>)
    | Start
    | Downloaded(job: nat)
    | See(job: nat)
    | TakeTurn(job: nat)
    | HandsOver(job: nat)
    | Fail(job: nat)
    | Finish(job: nat)

  function Empty(workers: nat): Pool {
    Pool(workers, [], 0, [])
  }

  /** The jobs of the same multi-add before job `j`, in list order. */
  function EarlierBelow(p: Pool, j: nat, bound: nat): (r: seq<nat>)
    requires j < |p.jobs|
    ensures forall i: nat :: i in r <==> i < bound && i < j && SameBatch(p, i, j)
    ensures |r| <= bound
  {
    if bound == 0 then []
    else
      var r := EarlierBelow(p, j, bound - 1);
      if bound - 1 < j && SameBatch(p, bound - 1, j) then r + [bound - 1] else r
  }

  predicate SameBatch(p: Pool, i: nat, j: nat) {
    i < |p.jobs| && j < |p.jobs| && p.jobs[i].batch.Some? && p.jobs[i].batch == p.jobs[j].batch
  }

  function Earlier(p: Pool, j: nat): (r: seq<nat>)
    requires j < |p.jobs|
    ensures forall k :: 0 <= k < |r| ==> r[k] < j && r[k] in r
  {
    var r := EarlierBelow(p, j, j);
    assert forall k :: 0 <= k < |r| ==> r[k] in r;
    r
  }

  function Running(p: Pool): (r: set<nat>)
    ensures forall j: nat :: j in r <==> j < p.next && j < |p.jobs| && p.jobs[j].stage != Finished
  {
    set j: nat | j < |p.jobs| && j < p.next && p.jobs[j].stage != Finished
  }

  /** A pool thread is free and a job waits for one. */
  predicate CanStart(p: Pool) {
    |Running(p)| < p.workers && p.next < |p.jobs|
  }

  /** In `wait_turn`, on a job that is not done yet. */
  predicate Blocked(p: Pool, j: nat) {
    && j < |p.jobs| && p.jobs[j].stage.Waiting?
    && p.jobs[j].stage.seen < |Earlier(p, j)|
    && p.jobs[Earlier(p, j)[p.jobs[j].stage.seen]].stage != Finished
  }

  function Set(p: Pool, j: nat, stage: Stage): Pool
    requires j < |p.jobs|
  {
    p.(jobs := p.jobs[j := p.jobs[j].(stage := stage)])
  }

  predicate At(p: Pool, j: nat, stage: Stage) {
    j < |p.jobs| && p.jobs[j].stage == stage
  }

  function Step(p: Pool, e: Event): Pool {
    match e
    case Add(batch) => p.(jobs := p.jobs + [Job(batch, Queued)])
    case Start => if CanStart(p) then Set(p, p.next, Downloading).(next := p.next + 1) else p
    case Downloaded(j) =>
      if At(p, j, Downloading) then Set(p, j, if p.jobs[j].batch.Some? then Waiting(0) else HandingOver) else p
    case See(j) =>
      if j < |p.jobs| && p.jobs[j].stage.Waiting? && p.jobs[j].stage.seen < |Earlier(p, j)| && !Blocked(p, j)
      then Set(p, j, Waiting(p.jobs[j].stage.seen + 1)) else p
    case TakeTurn(j) =>
      if j < |p.jobs| && p.jobs[j].stage.Waiting? && p.jobs[j].stage.seen >= |Earlier(p, j)|
      then Set(p, j, HandingOver) else p
    case HandsOver(j) => if At(p, j, HandingOver) then Set(p, j, Finishing).(handed := p.handed + [j]) else p
    case Fail(j) =>
      if j < |p.jobs| && (p.jobs[j].stage in {Downloading, HandingOver} || p.jobs[j].stage.Waiting?)
      then Set(p, j, Finishing) else p
    case Finish(j) => if At(p, j, Finishing) then Set(p, j, Finished) else p
  }

  ghost function Run(p: Pool, events: seq<Event>): Pool
    decreases |events|
  {
    if events == [] then p else Step(Run(p, events[..|events| - 1]), events[|events| - 1])
  }

  // ---- What every step keeps ----

  ghost predicate EarlierDone(p: Pool, j: nat) {
    forall i :: 0 <= i < j && SameBatch(p, i, j) ==> p.jobs[i].stage == Finished
  }

  ghost predicate SeenDone(p: Pool, j: nat)
    requires j < |p.jobs| && p.jobs[j].stage.Waiting?
  {
    forall i :: 0 <= i < p.jobs[j].stage.seen && i < |Earlier(p, j)| ==> DoneAt(p, Earlier(p, j)[i])
  }

  ghost predicate DoneAt(p: Pool, i: nat) {
    i < |p.jobs| && p.jobs[i].stage == Finished
  }

  ghost predicate Started(p: Pool) {
    && p.next <= |p.jobs|
    && forall j :: 0 <= j < |p.jobs| ==> (p.jobs[j].stage == Queued <==> j >= p.next)
  }

  /** Turns are kept: a job past `wait_turn` has only finished jobs of its multi-add before it. */
  ghost predicate Turns(p: Pool) {
    && (forall j :: 0 <= j < |p.jobs| && p.jobs[j].stage.Waiting? ==> SeenDone(p, j))
    && (forall j :: 0 <= j < |p.jobs| && p.jobs[j].stage == HandingOver ==> EarlierDone(p, j))
  }

  ghost predicate HandedInOrder(p: Pool) {
    && (forall h :: h in p.handed ==> h < |p.jobs| && p.jobs[h].stage in {Finishing, Finished} && EarlierDone(p, h))
    && (forall a, b :: 0 <= a < b < |p.handed| ==> p.handed[a] != p.handed[b])
    && (forall a, b :: 0 <= a < b < |p.handed| && SameBatch(p, p.handed[a], p.handed[b]) ==> p.handed[a] < p.handed[b])
  }

  ghost predicate Inv(p: Pool) {
    Started(p) && Turns(p) && HandedInOrder(p)
  }

  /** A step other than adding a job touches one job, and never takes a finished one back. */
  ghost predicate OneJob(p: Pool, q: Pool, j: nat) {
    && |q.jobs| == |p.jobs| && j < |p.jobs| && p.jobs[j].stage != Finished && q.jobs[j].batch == p.jobs[j].batch
    && (forall i :: 0 <= i < |p.jobs| && i != j ==> q.jobs[i] == p.jobs[i])
  }

  lemma {:induction false} SameEarlier(p: Pool, q: Pool, j: nat, bound: nat)
    requires |p.jobs| <= |q.jobs| && j < |p.jobs| && bound <= j
    requires forall i :: 0 <= i < |p.jobs| ==> q.jobs[i].batch == p.jobs[i].batch
    ensures EarlierBelow(q, j, bound) == EarlierBelow(p, j, bound)
  {
    if bound > 0 { SameEarlier(p, q, j, bound - 1); }
  }

  lemma AddKeeps(p: Pool, batch: Option<nat>)
    requires Inv(p)
    ensures Inv(Step(p, Add(batch)))
  {
    var q := Step(p, Add(batch));
    forall j | 0 <= j < |q.jobs| && q.jobs[j].stage.Waiting? ensures SeenDone(q, j) {
      SameEarlier(p, q, j, j);
      assert SeenDone(p, j);
      forall i | 0 <= i < q.jobs[j].stage.seen && i < |Earlier(q, j)| ensures DoneAt(q, Earlier(q, j)[i]) {
        assert DoneAt(p, Earlier(p, j)[i]);
      }
    }
    forall j | 0 <= j < |p.jobs| && EarlierDone(p, j) ensures EarlierDone(q, j) {
      forall i | 0 <= i < j && SameBatch(q, i, j) ensures q.jobs[i].stage == Finished {
        assert SameBatch(p, i, j);
      }
    }
    forall a, b | 0 <= a < b < |q.handed| && SameBatch(q, q.handed[a], q.handed[b]) ensures q.handed[a] < q.handed[b] {
      assert p.handed[a] in p.handed && p.handed[b] in p.handed;
      assert SameBatch(p, p.handed[a], p.handed[b]);
    }
  }

  lemma OneJobKeepsDone(p: Pool, q: Pool, j: nat)
    requires OneJob(p, q, j)
    ensures forall k :: 0 <= k < |p.jobs| && EarlierDone(p, k) ==> EarlierDone(q, k)
    ensures forall k :: 0 <= k < |p.jobs| && k != j && p.jobs[k].stage.Waiting? && SeenDone(p, k) ==> SeenDone(q, k)
  {
    forall k | 0 <= k < |p.jobs| && EarlierDone(p, k) ensures EarlierDone(q, k) {
      forall i | 0 <= i < k && SameBatch(q, i, k) ensures q.jobs[i].stage == Finished {
        assert SameBatch(p, i, k);
      }
    }
    forall k | 0 <= k < |p.jobs| && k != j && p.jobs[k].stage.Waiting? && SeenDone(p, k) ensures SeenDone(q, k) {
      SameEarlier(p, q, k, k);
      forall i | 0 <= i < q.jobs[k].stage.seen && i < |Earlier(q, k)| ensures DoneAt(q, Earlier(q, k)[i]) {
        assert DoneAt(p, Earlier(p, k)[i]);
      }
    }
  }

  lemma TurnsFollow(p: Pool, q: Pool, j: nat)
    requires Turns(p) && OneJob(p, q, j)
    requires q.jobs[j].stage.Waiting? ==> SeenDone(q, j)
    requires q.jobs[j].stage == HandingOver ==> EarlierDone(q, j)
    ensures Turns(q)
  {
    OneJobKeepsDone(p, q, j);
    hide SeenDone, EarlierDone;
  }

  /** Hand-overs stay in order when the log is kept, or grows by a job that has its turn. */
  lemma OrderFollows(p: Pool, q: Pool, j: nat)
    requires HandedInOrder(p) && OneJob(p, q, j)
    requires q.handed == p.handed || (q.handed == p.handed + [j] && EarlierDone(p, j) && p.jobs[j].stage == HandingOver)
    requires j in q.handed ==> q.jobs[j].stage in {Finishing, Finished}
    ensures HandedInOrder(q)
  {
    OneJobKeepsDone(p, q, j);
    forall h | h in q.handed ensures h < |q.jobs| && q.jobs[h].stage in {Finishing, Finished} && EarlierDone(q, h) {
      assert h in p.handed || h == j;
    }
    forall a, b | 0 <= a < b < |q.handed|
      ensures q.handed[a] != q.handed[b]
      ensures SameBatch(q, q.handed[a], q.handed[b]) ==> q.handed[a] < q.handed[b]
    {
      assert q.handed[a] in p.handed;
      if b < |p.handed| {
        assert SameBatch(q, q.handed[a], q.handed[b]) ==> SameBatch(p, p.handed[a], p.handed[b]);
      } else {
        assert q.handed[b] == j && EarlierDone(p, q.handed[a]);
        assert SameBatch(q, q.handed[a], j) ==> SameBatch(p, j, q.handed[a]);
      }
    }
  }

  lemma SeeOne(p: Pool, j: nat)
    requires Turns(p) && j < |p.jobs| && p.jobs[j].stage.Waiting?
    requires p.jobs[j].stage.seen < |Earlier(p, j)| && !Blocked(p, j)
    ensures SeenDone(Step(p, See(j)), j)
  {
    var q := Step(p, See(j));
    var seen := p.jobs[j].stage.seen;
    SameEarlier(p, q, j, j);
    assert SeenDone(p, j) && Earlier(p, j)[seen] in Earlier(p, j);
    forall i | 0 <= i <= seen && i < |Earlier(q, j)| ensures DoneAt(q, Earlier(q, j)[i]) {
      assert Earlier(p, j)[i] in Earlier(p, j);
      if i < seen { assert DoneAt(p, Earlier(p, j)[i]); }
    }
  }

  lemma TurnIsDone(p: Pool, j: nat)
    requires Turns(p) && j < |p.jobs| && p.jobs[j].stage.Waiting? && p.jobs[j].stage.seen >= |Earlier(p, j)|
    ensures EarlierDone(p, j)
  {
    forall i | 0 <= i < j && SameBatch(p, i, j) ensures p.jobs[i].stage == Finished {
      assert i in Earlier(p, j) && SeenDone(p, j);
      var k :| 0 <= k < |Earlier(p, j)| && Earlier(p, j)[k] == i;
      assert DoneAt(p, Earlier(p, j)[k]);
    }
  }

  lemma EarlierDoneKept(p: Pool, q: Pool, j: nat)
    requires EarlierDone(p, j) && OneJob(p, q, j)
    ensures EarlierDone(q, j)
  {
    OneJobKeepsDone(p, q, j);
  }

  lemma StepKeeps(p: Pool, e: Event)
    requires Inv(p)
    ensures Inv(Step(p, e))
  {
    hide EarlierDone, SeenDone, Blocked, Earlier;
    var q := Step(p, e);
    if e.Add? {
      AddKeeps(p, e.batch);
    } else if q != p {
      var j := if e.Start? then p.next else e.job;
      if e.See? { SeeOne(p, j); }
      if e.TakeTurn? { TurnIsDone(p, j); EarlierDoneKept(p, q, j); }
      if e.Downloaded? { NothingSeen(q, j); NoBatchNoEarlier(q, j); }
      TurnsFollow(p, q, j);
      OrderFollows(p, q, j);
    }
  }

  lemma NothingSeen(q: Pool, j: nat)
    ensures j < |q.jobs| && q.jobs[j].stage == Waiting(0) ==> SeenDone(q, j)
  {
  }

  lemma NoBatchNoEarlier(q: Pool, j: nat)
    ensures j < |q.jobs| && q.jobs[j].batch.None? ==> EarlierDone(q, j)
  {
  }

  lemma {:induction false} RunKeeps(workers: nat, events: seq<Event>)
    ensures Inv(Run(Empty(workers), events))
    decreases |events|
  {
    if events != [] {
      RunKeeps(workers, events[..|events| - 1]);
      StepKeeps(Run(Empty(workers), events[..|events| - 1]), events[|events| - 1]);
    }
  }

  /** Whatever fails or times out, the jobs of one multi-add hand over at most once each and in list order, and never
      while an earlier one is still under way. */
  lemma {:induction false} HandOversFollowTheList(workers: nat, events: seq<Event>)
    ensures HandedInOrder(Run(Empty(workers), events))
  {
    hide HandedInOrder;
    RunKeeps(workers, events);
  }

  lemma StepRuns(p: Pool, e: Event)
    requires Started(p) && |Running(p)| <= p.workers
    ensures |Running(Step(p, e))| <= p.workers && Step(p, e).workers == p.workers
  {
    hide Earlier, Blocked;
    var q := Step(p, e);
    if e.Start? && CanStart(p) {
      assert Running(q) == Running(p) + {p.next};
    } else {
      assert Running(q) <= Running(p);
      FewerRun(Running(q), Running(p));
    }
  }

  lemma {:induction false} FewerRun(a: set<nat>, b: set<nat>)
    requires a <= b
    ensures |a| <= |b|
  {
    assert b == a + (b - a);
  }

  /** No more jobs are under way than there are pool threads, and they start in the order they were added. */
  lemma {:induction false} PoolIsBounded(workers: nat, events: seq<Event>)
    ensures var p := Run(Empty(workers), events);
      && |set j: nat | j < |p.jobs| && p.jobs[j].stage !in {Queued, Finished}| <= workers
      && forall i, j :: 0 <= i < j < |p.jobs| && p.jobs[i].stage == Queued ==> p.jobs[j].stage == Queued
    decreases |events|
  {
    var p := Run(Empty(workers), events);
    RunKeeps(workers, events);
    RunsBounded(workers, events);
    assert (set j: nat | j < |p.jobs| && p.jobs[j].stage !in {Queued, Finished}) == Running(p);
  }

  lemma {:induction false} RunsBounded(workers: nat, events: seq<Event>)
    ensures |Running(Run(Empty(workers), events))| <= workers && Run(Empty(workers), events).workers == workers
    decreases |events|
  {
    if events == [] {
      assert Running(Empty(workers)) == {};
    } else {
      var head := events[..|events| - 1];
      RunsBounded(workers, head);
      RunKeeps(workers, head);
      hide Step;
      StepRuns(Run(Empty(workers), head), events[|events| - 1]);
    }
  }

  // ---- Progress ----

  ghost predicate Unfinished(p: Pool, j: nat) {
    j < |p.jobs| && p.jobs[j].stage != Finished
  }

  lemma FirstUnfinished(p: Pool, j: nat) returns (m: nat)
    requires Unfinished(p, j)
    ensures Unfinished(p, m) && forall i :: 0 <= i < m ==> !Unfinished(p, i)
  {
    m := 0;
    while !Unfinished(p, m)
      invariant m <= j && forall i :: 0 <= i < m ==> !Unfinished(p, i)
      decreases j - m
    {
      m := m + 1;
    }
  }

  /** As long as a job is unfinished, the pool can start one, or a running one is not blocked in `wait_turn`. */
  lemma SomeoneAdvances(p: Pool, j: nat) returns (m: nat)
    requires Inv(p) && p.workers >= 1 && Unfinished(p, j)
    ensures CanStart(p) || (m in Running(p) && !Blocked(p, m))
  {
    hide Turns, HandedInOrder;
    m := FirstUnfinished(p, j);
    assert forall i: nat :: i in Running(p) ==> i < p.next && Unfinished(p, i);
    if m >= p.next {
      assert Running(p) == {};
    } else if Blocked(p, m) {
      var i := Blocker(p, m);
    }
  }

  lemma Blocker(p: Pool, j: nat) returns (i: nat)
    requires Blocked(p, j)
    ensures i < j && Unfinished(p, i)
  {
    i := Earlier(p, j)[p.jobs[j].stage.seen];
  }

  /** What a running job that is not blocked does next, when nothing fails. */
  function NextOf(p: Pool, j: nat): Event
    requires j < |p.jobs|
  {
    match p.jobs[j].stage
    case Downloading => Downloaded(j)
    case Waiting(seen) => if seen < |Earlier(p, j)| then See(j) else TakeTurn(j)
    case HandingOver => HandsOver(j)
    case _ => Finish(j)
  }

  /** The steps a job has left. */
  function WorkOf(p: Pool, j: nat): nat
    requires j < |p.jobs|
  {
    match p.jobs[j].stage
    case Queued => j + 5
    case Downloading => j + 4
    case Waiting(seen) => if seen <= j then j - seen + 3 else 3
    case HandingOver => 2
    case Finishing => 1
    case Finished => 0
  }

  function WorkBelow(p: Pool, bound: nat): nat
    requires bound <= |p.jobs|
  {
    if bound == 0 then 0 else WorkBelow(p, bound - 1) + WorkOf(p, bound - 1)
  }

  function Work(p: Pool): nat {
    WorkBelow(p, |p.jobs|)
  }

  lemma {:induction false} LessWork(p: Pool, q: Pool, j: nat, bound: nat)
    requires OneJob(p, q, j) && WorkOf(q, j) < WorkOf(p, j) && bound <= |p.jobs|
    ensures if j < bound then WorkBelow(q, bound) < WorkBelow(p, bound) else WorkBelow(q, bound) == WorkBelow(p, bound)
  {
    if bound > 0 {
      LessWork(p, q, j, bound - 1);
      if bound - 1 != j { assert WorkOf(q, bound - 1) == WorkOf(p, bound - 1); }
    }
  }

  /** Every step that does anything uses up work: without new jobs the pool always comes to an end. */
  lemma StepsUseUpWork(p: Pool, e: Event)
    requires Inv(p) && !e.Add? && Step(p, e) != p
    ensures Work(Step(p, e)) < Work(p)
  {
    hide Turns, HandedInOrder, Blocked;
    var j := if e.Start? then p.next else e.job;
    LessWork(p, Step(p, e), j, |p.jobs|);
  }

  lemma AdvanceChanges(p: Pool, j: nat)
    requires Inv(p) && j in Running(p) && !Blocked(p, j)
    ensures Step(p, NextOf(p, j)) != p && !NextOf(p, j).Fail? && !NextOf(p, j).Add?
  {
    hide Turns, HandedInOrder;
    assert Step(p, NextOf(p, j)).jobs[j].stage != p.jobs[j].stage;
  }

  /** A step that nothing prevents while a job is unfinished: no failure, no time-out. */
  lemma Advance(p: Pool, j: nat) returns (e: Event)
    requires Inv(p) && p.workers >= 1 && Unfinished(p, j)
    ensures !e.Add? && !e.Fail? && Step(p, e) != p
  {
    hide Inv, Blocked, CanStart;
    var m := SomeoneAdvances(p, j);
    if CanStart(p) {
      e := Start;
      StartChanges(p);
    } else {
      e := NextOf(p, m);
      AdvanceChanges(p, m);
    }
  }

  lemma StartChanges(p: Pool)
    requires CanStart(p)
    ensures Step(p, Start) != p
  {
    assert Step(p, Start).next != p.next;
  }

  /** Even if no wait ever times out, every reachable pool state with a worker runs all its jobs to the end. */
  lemma {:induction false} EveryJobFinishes(p: Pool) returns (events: seq<Event>)
    requires Inv(p) && p.workers >= 1
    ensures forall e :: e in events ==> !e.Add? && !e.Fail?
    ensures forall j :: !Unfinished(Run(p, events), j)
    decreases Work(p)
  {
    hide Inv, Step, Work, Unfinished;
    if j :| Unfinished(p, j) {
      var e := Advance(p, j);
      StepsUseUpWork(p, e);
      StepKeeps(p, e);
      SameWorkers(p, e);
      var rest := EveryJobFinishes(Step(p, e));
      events := [e] + rest;
      RunFrom(p, e, rest);
    } else {
      events := [];
    }
  }

  lemma SameWorkers(p: Pool, e: Event)
    ensures Step(p, e).workers == p.workers
  {
  }

  lemma {:induction false} RunFrom(p: Pool, e: Event, rest: seq<Event>)
    ensures Run(p, [e] + rest) == Run(Step(p, e), rest)
    decreases |rest|
  {
    hide Step;
    if rest == [] {
      assert [e] + rest == [e] && [e][..0] == [];
      assert Run(p, [e][..0]) == p;
    } else {
      var n := |rest| - 1;
      assert ([e] + rest)[..n + 1] == [e] + rest[..n] && ([e] + rest)[n + 1] == rest[n];
      RunFrom(p, e, rest[..n]);
    }
  }
}
