/** A multi-add from the picked list to the Tonie: hand-over order, submission order and write order are one order, over
    every run of the pool and the queue together. */
module Pipeline {
  import opened Lists
  import opened Planner
  import opened UndoLaws
  import opened CloudContent
  import opened CloudWrite
  import opened CloudLaws
  import opened Queue
  import opened QueueInvariants
  import opened QueueSteps
  import opened QueueGrants
  import opened QueueOrder
  import opened QueueRuns
  import opened QueueOverlap
  import HandOver
  import MultiAdd

  // ---- The pool and the queue together ----

  /** `uploads[x]` is the action that the hand-over of `pool.handed[x]` queued; `log` holds the confirmed writes. */
  datatype Joint = Joint(pool: HandOver.Pool, queue: State, uploads: seq<nat>, log: seq<LastWrite>)

  datatype Move =
    | Pools(step: HandOver.Event)
    | HandsOver(job: nat, key: Key, title: string, position: Position, session: Session)
    | Queues(event: Event)

  /** The confirmed write that an event ends, if any. */
  ghost function Ended(s: State, e: Event): (r: seq<LastWrite>)
    requires Sane(s)
    ensures |r| <= 1
  {
    if e.WorkerDone? && IsWriting(s, e.key) then
      WritingIsValid(s, e.key);
      var batch := s.workers[e.key].batch;
      var write := WriteOf(s, e.key, batch, e.call);
      if write.Some? then [LastWrite(batch, write.value)] else []
    else []
  }

  ghost function Queued(j: Joint, e: Event): Joint
    requires Sane(j.queue)
  {
    j.(queue := Next(j.queue, e), log := j.log + Ended(j.queue, e))
  }

  /** `enqueue_upload` submits the upload in the same step; a submission that raises fails the job instead. */
  ghost function Moved(j: Joint, m: Move): Joint
    requires Sane(j.queue)
  {
    match m
    case Pools(step) => if step.HandsOver? then j else j.(pool := HandOver.Step(j.pool, step))
    case HandsOver(job, key, title, position, session) =>
      if !HandOver.At(j.pool, job, HandOver.HandingOver) then j
      else if key == "" || session in j.queue.closed then j.(pool := HandOver.Step(j.pool, HandOver.Fail(job)))
      else
        Queued(j, SubmitUpload(key, title, position, session)).(
          pool := HandOver.Step(j.pool, HandOver.HandsOver(job)), uploads := j.uploads + [|j.queue.actions|])
    case Queues(e) => Queued(j, e)
  }

  // ---- What every move keeps ----

  /** Each hand-over queued one upload, so later hand-overs have higher action numbers. */
  ghost predicate Numbered(handed: seq<nat>, uploads: seq<nat>, actions: nat) {
    |uploads| == |handed| && Ascends(uploads) && forall x :: 0 <= x < |uploads| ==> uploads[x] < actions
  }

  /** A confirmed write carried actions of its Tonie, in ascending order, which had entered it. */
  ghost predicate Logged(s: State, w: LastWrite) {
    && CarriedBy(s, w) && Ascends(w.batch)
    && forall n :: n in w.batch ==> n in s.entered && n < |s.actions| && s.actions[n].key == w.write.target
  }

  /** What is in flight entered its write; what was written before entered before it. */
  ghost predicate Flight(s: State, log: seq<LastWrite>, key: Key) {
    IsWriting(s, key) ==>
      && (forall n :: n in s.workers[key].batch ==> n in s.entered)
      && (forall a :: 0 <= a < |log| && log[a].write.target == key ==> Before(s, log[a].batch, s.workers[key].batch))
  }

  ghost predicate Before(s: State, a: seq<nat>, b: seq<nat>) {
    forall m, n :: m in a && n in b && SameLane(s, m, n) ==> m < n
  }

  ghost predicate LogInOrder(s: State, log: seq<LastWrite>) {
    && (forall a :: 0 <= a < |log| ==> Logged(s, log[a]))
    && (forall a, b :: 0 <= a < b < |log| && log[a].write.target == log[b].write.target ==>
      Before(s, log[a].batch, log[b].batch))
  }

  ghost predicate History(s: State, log: seq<LastWrite>) {
    LogInOrder(s, log) && forall key :: Flight(s, log, key)
  }

  ghost predicate Together(j: Joint) {
    && HandOver.Inv(j.pool) && Holds(j.queue)
    && Numbered(j.pool.handed, j.uploads, |j.queue.actions|) && History(j.queue, j.log)
  }

  // ---- The log ----

  lemma LaneStays(s: State, t: State, m: nat, n: nat)
    requires ActionSteps(s, t) && m < |s.actions| && n < |s.actions|
    ensures SameLane(t, m, n) <==> SameLane(s, m, n)
  {
  }

  lemma BeforeStays(s: State, t: State, a: seq<nat>, b: seq<nat>)
    requires Before(s, a, b) && ActionSteps(s, t)
    requires (forall n :: n in a ==> n < |s.actions|) && (forall n :: n in b ==> n < |s.actions|)
    ensures Before(t, a, b)
  {
    hide ActionSteps;
    forall m, n | m in a && n in b && SameLane(t, m, n) ensures m < n {
      LaneStays(s, t, m, n);
    }
  }

  lemma LoggedStays(s: State, t: State, w: LastWrite)
    requires Logged(s, w) && ActionSteps(s, t) && s.entered <= t.entered
    ensures Logged(t, w)
  {
    CarriedFollows(s, t, w);
    hide CarriedBy;
    forall n | n in w.batch ensures n in t.entered && n < |t.actions| && t.actions[n].key == w.write.target {
      var i :| 0 <= i < |s.entered| && s.entered[i] == n;
      assert t.entered[i] == n;
      assert ActionStep(s.actions[n], t.actions[n]);
    }
  }

  lemma LoggedNumbers(s: State, w: LastWrite)
    requires Logged(s, w)
    ensures forall n :: n in w.batch ==> n < |s.actions|
  {
  }

  lemma LogStays(s: State, t: State, log: seq<LastWrite>)
    requires LogInOrder(s, log) && ActionSteps(s, t) && s.entered <= t.entered
    ensures LogInOrder(t, log)
  {
    hide Logged, ActionSteps, Before;
    forall a | 0 <= a < |log| ensures Logged(t, log[a]) {
      LoggedStays(s, t, log[a]);
    }
    forall a, b | 0 <= a < b < |log| && log[a].write.target == log[b].write.target
      ensures Before(t, log[a].batch, log[b].batch)
    {
      LoggedNumbers(s, log[a]);
      LoggedNumbers(s, log[b]);
      BeforeStays(s, t, log[a].batch, log[b].batch);
    }
  }

  /** The log grows by a write whose batch entered after everything logged for its Tonie. */
  lemma LogGrows(s: State, t: State, log: seq<LastWrite>, w: LastWrite)
    requires LogInOrder(t, log) && Logged(t, w)
    requires forall a :: 0 <= a < |log| && log[a].write.target == w.write.target ==> Before(t, log[a].batch, w.batch)
    ensures LogInOrder(t, log + [w])
  {
    hide Logged, Before;
  }

  lemma EnteredGrows(s: State, e: Event)
    requires Sane(s)
    ensures s.entered <= Next(s, e).entered
  {
    hide Next, Sane;
    if e.WorkerCollect? { NextIsCollected(s, e.key); } else { NextEntered(s, e); }
  }

  lemma LaterEntered(t: State, entered: seq<nat>, batch: seq<nat>, past: seq<nat>)
    requires Ordered(t) && t.entered == entered + batch
    requires forall n :: n in past ==> n in entered
    ensures (forall n :: n in batch ==> n in t.entered) && Before(t, past, batch)
  {
    hide SameLane, EnteredAreActions, Outside, Blocks;
    forall m, n | m in past && n in batch && SameLane(t, m, n) ensures m < n {
      var i :| 0 <= i < |entered| && entered[i] == m;
      var k :| 0 <= k < |batch| && batch[k] == n;
      assert t.entered[i] == m && t.entered[|entered| + k] == n;
    }
  }

  lemma CollectedBefore(s: State, t: State, key: Key, past: seq<nat>)
    requires Ordered(t) && key in s.workers && s.workers[key].Collecting? && t == Collected(s, key)
    requires forall n :: n in past ==> n in s.entered
    ensures (forall n :: n in ReadyBatch(s, key) ==> n in t.entered) && Before(t, past, ReadyBatch(s, key))
  {
    hide ReadyBatch, Ordered, Before;
    LaterEntered(t, s.entered, ReadyBatch(s, key), past);
  }

  lemma StartedFlight(s: State, t: State, log: seq<LastWrite>, key: Key)
    requires LogInOrder(s, log) && Ordered(t) && key in s.workers && s.workers[key].Collecting?
      && t == Collected(s, key)
    requires IsWriting(t, key) && t.workers[key] == Writing(ReadyBatch(s, key))
    ensures Flight(t, log, key)
  {
    hide Collected, ReadyBatch, Ordered, Before;
    CollectedBefore(s, t, key, []);
    forall a | 0 <= a < |log| && log[a].write.target == key ensures Before(t, log[a].batch, t.workers[key].batch) {
      assert Logged(s, log[a]);
      CollectedBefore(s, t, key, log[a].batch);
    }
  }

  lemma SameFlight(s: State, t: State, log: seq<LastWrite>, key: Key)
    requires LogInOrder(s, log) && Flight(s, log, key) && ActionSteps(s, t) && s.entered <= t.entered && Workers(s)
    requires SameWriting(s, t, key)
    ensures Flight(t, log, key)
  {
    hide ActionSteps, Before, Logged;
    if IsWriting(t, key) {
      WritingBatch(s, key);
      var batch := s.workers[key].batch;
      forall n | n in batch ensures n in t.entered {
        var i :| 0 <= i < |s.entered| && s.entered[i] == n;
        assert t.entered[i] == n;
      }
      forall a | 0 <= a < |log| && log[a].write.target == key ensures Before(t, log[a].batch, batch) {
        LoggedNumbers(s, log[a]);
        BeforeStays(s, t, log[a].batch, batch);
      }
    }
  }

  lemma CollectingIs(s: State, key: Key)
    requires key in s.workers && !s.workers[key].Writing? && IsWriting(Collected(s, key), key)
    ensures s.workers[key].Collecting?
  {
  }

  /** The flights of one step: the same as before, or just collected. */
  lemma NextFlight(s: State, e: Event, log: seq<LastWrite>, key: Key)
    requires Holds(s) && LogInOrder(s, log) && Flight(s, log, key)
    ensures Sane(s) && Flight(Next(s, e), log, key)
  {
    hide Holds, Next, Sane, Shape, Store, Registry, Workers, Deferral, Runs, Quiet, Owners, ReceiptsCarried, Ordered,
         Flight, LogInOrder, ActionSteps, Collected, ReadyBatch, EnteredAreActions;
    HoldsParts(s);
    var t := Next(s, e);
    if IsWriting(t, key) {
      WritingBefore(s, e, key);
      NextSteps(s, e);
      EnteredGrows(s, e);
      if IsWriting(s, key) {
        SameFlight(s, t, log, key);
      } else {
        NextHolds(s, e);
        HoldsParts(t);
        CollectingIs(s, key);
        StartedFlight(s, t, log, key);
      }
    } else {
      NoFlight(t, log, key);
    }
  }

  lemma NoFlight(t: State, log: seq<LastWrite>, key: Key)
    requires !IsWriting(t, key)
    ensures Flight(t, log, key)
  {
  }

  /** The write an event ends carried the batch that was in flight. */
  lemma EndedIsLogged(s: State, e: Event, log: seq<LastWrite>)
    requires Holds(s) && Sane(s) && e.WorkerDone? && Ended(s, e) != [] && Flight(s, log, e.key)
    ensures var w := Ended(s, e)[0];
      && IsWriting(s, e.key) && w.batch == s.workers[e.key].batch && w.write.target == e.key
      && Logged(Next(s, e), w) && !IsWriting(Next(s, e), e.key)
  {
    hide Holds, Next, Sane, Shape, Store, Registry, Workers, Deferral, Runs, Quiet, Owners, ReceiptsCarried, Ordered,
         EnteredAreActions, EndsAs, ActionSteps, CarriedBy;
    HoldsParts(s);
    var key, batch := e.key, s.workers[e.key].batch;
    var t, w := Next(s, e), Ended(s, e)[0];
    WritingIsValid(s, key);
    WritingBatch(s, key);
    NextSteps(s, e);
    NextEntered(s, e);
    SaneStore(s);
    var ending := DoneEnds(s, key, e.call);
    EndingWrites(s, key, batch, e.call, ending);
    FinishedCarries(s, t, key, batch, ending.results, w.write);
    EndingTouches(s, key, batch, ending, t);
    KeysStay(s, t, key, batch);
  }

  lemma EndingWrites(s: State, key: Key, batch: seq<nat>, call: ApplyCall, ending: Ending)
    requires ValidNumbers(s, batch) && EndsFor(s, key, batch, call, ending) && WriteOf(s, key, batch, call).Some?
    ensures ending.Back? && ending.write == WriteOf(s, key, batch, call) && ending.write.value.target == key
  {
    hide OpsOf;
  }

  lemma KeysStay(s: State, t: State, key: Key, batch: seq<nat>)
    requires WritesBatch(s, key, batch) && ActionSteps(s, t)
    ensures Ascends(batch) && forall n :: n in batch ==> n < |t.actions| && t.actions[n].key == key
  {
    forall n | n in batch ensures n < |t.actions| && t.actions[n].key == key {
      assert ActionStep(s.actions[n], t.actions[n]);
    }
  }

  lemma NextHistory(s: State, e: Event, log: seq<LastWrite>)
    requires Holds(s) && Sane(s) && History(s, log)
    ensures History(Next(s, e), log + Ended(s, e))
  {
    hide Holds, Next, Sane, Shape, Store, Registry, Workers, Deferral, Runs, Quiet, Owners, ReceiptsCarried, Ordered,
         EnteredAreActions, Flight, LogInOrder, ActionSteps, Ended;
    HoldsParts(s);
    var t, ended := Next(s, e), Ended(s, e);
    NextSteps(s, e);
    EnteredGrows(s, e);
    LogStays(s, t, log);
    forall key ensures Flight(t, log, key) {
      NextFlight(s, e, log, key);
    }
    if ended != [] {
      EndedIsDone(s, e);
      EndedHistory(s, e, log);
    } else {
      assert log + ended == log;
    }
  }

  lemma EndedIsDone(s: State, e: Event)
    requires Sane(s)
    ensures Ended(s, e) != [] ==> e.WorkerDone?
  {
  }

  lemma EndedHistory(s: State, e: Event, log: seq<LastWrite>)
    requires Holds(s) && Sane(s) && History(s, log) && e.WorkerDone? && Ended(s, e) != []
    requires LogInOrder(Next(s, e), log) && (forall key :: Flight(Next(s, e), log, key)) && ActionSteps(s, Next(s, e))
    ensures History(Next(s, e), log + Ended(s, e))
  {
    hide Holds, Next, Sane, Shape, Store, Registry, Workers, Deferral, Runs, Quiet, Owners, ReceiptsCarried, Ordered,
         EnteredAreActions, Flight, LogInOrder, ActionSteps, Ended, IsWriting, Logged;
    HoldsParts(s);
    var t, w := Next(s, e), Ended(s, e)[0];
    assert Ended(s, e) == [w];
    EndedIsLogged(s, e, log);
    EndedIsLast(s, t, log, w, e.key);
    forall key ensures Flight(t, log + [w], key) {
      FlightGoesOn(t, log, w, key);
    }
  }

  lemma EndedIsLast(s: State, t: State, log: seq<LastWrite>, w: LastWrite, key: Key)
    requires LogInOrder(s, log) && LogInOrder(t, log) && Flight(s, log, key) && ActionSteps(s, t) && Workers(s)
    requires IsWriting(s, key) && w.batch == s.workers[key].batch && w.write.target == key && Logged(t, w)
    ensures LogInOrder(t, log + [w])
  {
    hide ActionSteps, Workers, Logged, Before;
    WritingBatch(s, key);
    forall a | 0 <= a < |log| && log[a].write.target == key ensures Before(t, log[a].batch, w.batch) {
      LoggedNumbers(s, log[a]);
      BeforeStays(s, t, log[a].batch, w.batch);
    }
    LogGrows(s, t, log, w);
  }

  lemma FlightGoesOn(t: State, log: seq<LastWrite>, w: LastWrite, key: Key)
    requires Flight(t, log, key) && !IsWriting(t, w.write.target)
    ensures Flight(t, log + [w], key)
  {
    hide Before;
  }

  // ---- Every move ----

  lemma HandsOverLog(p: HandOver.Pool, e: HandOver.Event)
    ensures HandOver.Step(p, e).handed
            == if e.HandsOver? && HandOver.At(p, e.job, HandOver.HandingOver) then p.handed + [e.job] else p.handed
  {
  }

  lemma NumbersGrow(handed: seq<nat>, uploads: seq<nat>, actions: nat, job: nat)
    requires Numbered(handed, uploads, actions)
    ensures Numbered(handed + [job], uploads + [actions], actions + 1)
  {
  }

  lemma MoreActions(s: State, e: Event)
    requires Sane(s) && Registry(s) && Workers(s) && Runs(s)
    ensures |s.actions| <= |Next(s, e).actions|
    ensures e.SubmitUpload? && e.key != "" && e.session !in s.closed ==> |Next(s, e).actions| == |s.actions| + 1
  {
    hide Next, Sane, Registry, Workers, Runs, ActionStep;
    NextSteps(s, e);
    if e.SubmitUpload? && e.key != "" && e.session !in s.closed { UploadAdds(s, e); }
  }

  lemma UploadAdds(s: State, e: Event)
    requires Sane(s) && e.SubmitUpload? && e.key != "" && e.session !in s.closed
    ensures |Next(s, e).actions| == |s.actions| + 1
  {
    hide NewActions, Kept, Newest, InvalidateAll, Numbers, EnsureWorker, DefersDeletes;
    assert |Submission(e)| == 1;
  }

  lemma QueuedKeeps(j: Joint, e: Event)
    requires Sane(j.queue) && Holds(j.queue) && History(j.queue, j.log)
    ensures var t := Queued(j, e); Holds(t.queue) && History(t.queue, t.log) && |j.queue.actions| <= |t.queue.actions|
    ensures e.SubmitUpload? && e.key != "" && e.session !in j.queue.closed ==>
      |Queued(j, e).queue.actions| == |j.queue.actions| + 1
  {
    hide Holds, Next, Sane, Shape, Store, Registry, Workers, Deferral, Runs, Quiet, Owners, ReceiptsCarried, Ordered,
         EnteredAreActions, History, Ended;
    HoldsParts(j.queue);
    NextHolds(j.queue, e);
    NextHistory(j.queue, e, j.log);
    MoreActions(j.queue, e);
  }

  lemma TogetherIsSane(j: Joint)
    requires Together(j)
    ensures Sane(j.queue)
  {
    hide Holds, HandOver.Inv, Numbered, History;
    HoldsParts(j.queue);
  }

  lemma MovedTogether(j: Joint, m: Move)
    requires Together(j) && Sane(j.queue)
    ensures Together(Moved(j, m))
  {
    hide Holds, Sane, HandOver.Inv, HandOver.Step, HandOver.At, History, Queued;
    match m {
      case Pools(step) =>
        HandOver.StepKeeps(j.pool, step);
        HandsOverLog(j.pool, step);
      case HandsOver(job, key, title, position, session) =>
        HandOver.StepKeeps(j.pool, HandOver.Fail(job));
        HandsOverLog(j.pool, HandOver.Fail(job));
        HandOver.StepKeeps(j.pool, HandOver.HandsOver(job));
        HandsOverLog(j.pool, HandOver.HandsOver(job));
        QueuedKeeps(j, SubmitUpload(key, title, position, session));
        NumbersGrow(j.pool.handed, j.uploads, |j.queue.actions|, job);
      case Queues(e) =>
        QueuedKeeps(j, e);
        QueuedRest(j, e);
    }
  }

  lemma QueuedRest(j: Joint, e: Event)
    requires Sane(j.queue)
    ensures Queued(j, e).pool == j.pool && Queued(j, e).uploads == j.uploads
  {
    hide Next, Ended;
  }

  /** The state after a run of the pool and the queue together. */
  ghost function JointRun(workers: nat, moves: seq<Move>): (j: Joint)
    ensures Together(j)
    decreases |moves|
  {
    if moves == [] then
      NothingYet(workers);
      Joint(HandOver.Empty(workers), INIT, [], [])
    else
      var last := |moves| - 1;
      var j := JointRun(workers, moves[..last]);
      TogetherIsSane(j);
      MovedTogether(j, moves[last]);
      Moved(j, moves[last])
  }

  lemma NothingYet(workers: nat)
    ensures Together(Joint(HandOver.Empty(workers), INIT, [], []))
  {
    hide Holds;
    InitHolds();
    HandOver.RunKeeps(workers, []);
  }

  // ---- Rounds ----

  function ListOf(r: Read): seq<Chapter> {
    if r.Some? then r.value.chapters else []
  }

  /** A confirmed write and the list that is read next, as one round of a multi-add. */
  ghost function RoundOf(w: Write, jobs: seq<nat>, later: seq<Chapter>): MultiAdd.Round
    requires Happened(w)
  {
    WriteReports(w);
    var s := w.cloud.before.value;
    MultiAdd.Round(w.retitle, Capacity(s), Finite(s.maxChapters), w.ops, jobs, w.results, w.receipt.processing, later)
  }

  ghost function StartOf(w: Write): seq<Chapter>
    requires Happened(w)
  {
    WriteReports(w);
    w.cloud.before.value.chapters
  }

  /** A write of picks at one position that nobody disturbed: what is read next still matches its receipt, and brings
      back no chapter the position names in vain. */
  ghost predicate Undisturbed(w: Write, p: Position, later: Read)
    requires Happened(w)
  {
    && MultiAdd.PicksAt(p, w.ops) && StillMatches(w, later)
    && MultiAdd.GoneStaysGone(p, StartOf(w), RoundOf(w, [], ListOf(later)))
  }

  /** A confirmed write of picks, and any later list that matches its receipt, is one round of a multi-add. */
  lemma WriteIsRound(w: Write, jobs: seq<nat>, p: Position, later: Read)
    requires Happened(w) && Undisturbed(w, p, later) && |jobs| == |w.ops|
    ensures MultiAdd.Stored(StartOf(w)) && later.Some?
    ensures MultiAdd.Follows(StartOf(w), RoundOf(w, jobs, ListOf(later)), p)
  {
    hide ApplyOutcome, Matches, Shows, PlanFrom;
    WriteReports(w);
    WholePlan(w);
    WriteShows(w, later.value.chapters);
  }

  // ---- List order ----

  /** The jobs of one multi-add among the first `bound` of the pool. */
  function CountBelow(p: HandOver.Pool, batch: nat, bound: nat): (r: nat)
    requires bound <= |p.jobs|
  {
    if bound == 0 then 0 else CountBelow(p, batch, bound - 1) + if p.jobs[bound - 1].batch == Some(batch) then 1 else 0
  }

  lemma {:induction false} CountGrows(p: HandOver.Pool, batch: nat, a: nat, b: nat)
    requires a <= b <= |p.jobs|
    ensures CountBelow(p, batch, a) <= CountBelow(p, batch, b)
    ensures a < b && p.jobs[a].batch == Some(batch) ==> CountBelow(p, batch, a) < CountBelow(p, batch, b)
    decreases b
  {
    if a < b { CountGrows(p, batch, a, b - 1); }
  }

  /** Action `n` is the upload of a job of this multi-add. */
  ghost predicate IsPick(j: Joint, batch: nat, n: nat) {
    && n in j.uploads && |j.uploads| == |j.pool.handed|
    && var job := j.pool.handed[IndexOf(j.uploads, n)];
       job < |j.pool.jobs| && j.pool.jobs[job].batch == Some(batch)
  }

  /** Which of the jobs of the multi-add, in the order they were given to the pool. */
  ghost function RankOf(j: Joint, batch: nat, n: nat): nat
    requires IsPick(j, batch, n)
  {
    CountBelow(j.pool, batch, j.pool.handed[IndexOf(j.uploads, n)])
  }

  function Size(p: HandOver.Pool, batch: nat): nat {
    CountBelow(p, batch, |p.jobs|)
  }

  /** Later actions are later jobs. */
  lemma RanksAscend(j: Joint, batch: nat, m: nat, n: nat)
    requires HandOver.HandedInOrder(j.pool) && Numbered(j.pool.handed, j.uploads, |j.queue.actions|)
    requires IsPick(j, batch, m) && IsPick(j, batch, n)
    ensures RankOf(j, batch, m) < Size(j.pool, batch)
    ensures m < n ==> RankOf(j, batch, m) < RankOf(j, batch, n)
  {
    hide HandOver.EarlierDone, CountBelow, IndexOf;
    var x, y := IndexOf(j.uploads, m), IndexOf(j.uploads, n);
    var a, b := j.pool.handed[x], j.pool.handed[y];
    CountGrows(j.pool, batch, a, |j.pool.jobs|);
    if m < n {
      assert x < y;
      assert HandOver.SameBatch(j.pool, a, b);
      CountGrows(j.pool, batch, a, b);
    }
  }

  /** Over any run, the uploads of one multi-add that enter writes of one Tonie enter in list order, whatever else is
      queued, fails, times out or is canceled. */
  lemma {:induction false} UploadsEnterInListOrder(workers: nat, moves: seq<Move>, batch: nat, a: nat, b: nat)
    requires var j := JointRun(workers, moves);
      && a < b < |j.queue.entered| && SameLane(j.queue, j.queue.entered[a], j.queue.entered[b])
      && IsPick(j, batch, j.queue.entered[a]) && IsPick(j, batch, j.queue.entered[b])
    ensures var j := JointRun(workers, moves);
      RankOf(j, batch, j.queue.entered[a]) < RankOf(j, batch, j.queue.entered[b])
  {
    hide JointRun, Holds, SameLane, HandOver.HandedInOrder, IsPick, RankOf, Numbered, History;
    var j := JointRun(workers, moves);
    HoldsParts(j.queue);
    RanksAscend(j, batch, j.queue.entered[a], j.queue.entered[b]);
  }

  ghost predicate PicksOf(j: Joint, batch: nat, w: LastWrite) {
    forall n :: n in w.batch ==> IsPick(j, batch, n)
  }

  ghost function Ranks(j: Joint, batch: nat, w: LastWrite): (r: seq<nat>)
    requires PicksOf(j, batch, w)
    ensures |r| == |w.batch| && forall i :: 0 <= i < |r| ==>
      w.batch[i] in w.batch && r[i] == RankOf(j, batch, w.batch[i])
  {
    seq(|w.batch|, i requires 0 <= i < |w.batch| => assert w.batch[i] in w.batch; RankOf(j, batch, w.batch[i]))
  }

  // ---- The writes of a multi-add ----

  /** What is read next after the first of these writes: the snapshot of the next one, or `last`. */
  ghost function NextRead(writes: seq<LastWrite>, last: Read): Read
    requires writes != []
  {
    if |writes| == 1 then last else writes[1].write.cloud.before
  }

  /** Nobody edits the Tonie between these writes of picks. */
  ghost predicate Uninterrupted(writes: seq<LastWrite>, p: Position, last: Read)
    decreases |writes|
  {
    writes == [] || (
      && Happened(writes[0].write) && |writes[0].batch| == |writes[0].write.ops|
      && Undisturbed(writes[0].write, p, NextRead(writes, last)) && Uninterrupted(writes[1..], p, last))
  }

  ghost predicate AllPicks(j: Joint, batch: nat, writes: seq<LastWrite>) {
    forall i :: 0 <= i < |writes| ==> PicksOf(j, batch, writes[i])
  }

  ghost function RoundsOf(j: Joint, batch: nat, writes: seq<LastWrite>, p: Position,
                          last: Read): (r: seq<MultiAdd.Round>)
    requires Uninterrupted(writes, p, last) && AllPicks(j, batch, writes)
    decreases |writes|
  {
    if writes == [] then []
    else
      [RoundOf(writes[0].write, Ranks(j, batch, writes[0]), ListOf(NextRead(writes, last)))]
      + RoundsOf(j, batch, writes[1..], p, last)
  }

  lemma {:induction false} WritesAreJourney(j: Joint, batch: nat, writes: seq<LastWrite>, p: Position, last: Read)
    requires writes != [] && Uninterrupted(writes, p, last) && AllPicks(j, batch, writes)
    ensures MultiAdd.Stored(StartOf(writes[0].write))
    ensures MultiAdd.Journey(StartOf(writes[0].write), RoundsOf(j, batch, writes, p, last), p)
    decreases |writes|
  {
    hide Happened, Undisturbed, PicksOf, MultiAdd.Follows, MultiAdd.Stored, RoundOf;
    WriteIsRound(writes[0].write, Ranks(j, batch, writes[0]), p, NextRead(writes, last));
    RoundLater(writes[0].write, Ranks(j, batch, writes[0]), ListOf(NextRead(writes, last)));
    var rounds := RoundsOf(j, batch, writes, p, last);
    assert rounds[1..] == RoundsOf(j, batch, writes[1..], p, last);
    if |writes| > 1 {
      WritesAreJourney(j, batch, writes[1..], p, last);
      assert StartOf(writes[1..][0].write) == ListOf(NextRead(writes, last));
    } else {
      assert rounds[1..] == [];
    }
  }

  lemma RoundLater(w: Write, jobs: seq<nat>, later: seq<Chapter>)
    requires Happened(w)
    ensures RoundOf(w, jobs, later).later == later && RoundOf(w, jobs, later).jobs == jobs
  {
    hide ApplyOutcome;
  }

  /** Every batch ascends, and lies before those of later writes. */
  ghost predicate InOrder(writes: seq<LastWrite>) {
    && (forall i :: 0 <= i < |writes| ==> Ascends(writes[i].batch))
    && (forall i, k :: 0 <= i < k < |writes| ==> AllBefore(writes[i].batch, writes[k].batch))
  }

  ghost predicate AllBefore(a: seq<nat>, b: seq<nat>) {
    forall m, n :: m in a && n in b ==> m < n
  }

  lemma WriteRanksAscend(j: Joint, batch: nat, w: LastWrite)
    requires HandOver.HandedInOrder(j.pool) && Numbered(j.pool.handed, j.uploads, |j.queue.actions|)
    requires PicksOf(j, batch, w) && Ascends(w.batch)
    ensures Ascends(Ranks(j, batch, w)) && forall x :: x in Ranks(j, batch, w) ==> x < Size(j.pool, batch)
  {
    hide HandOver.HandedInOrder, Numbered, IsPick, RankOf, Size;
    var r := Ranks(j, batch, w);
    forall i, k | 0 <= i < k < |r| ensures r[i] < r[k] {
      RanksAscend(j, batch, w.batch[i], w.batch[k]);
    }
    forall x | x in r ensures x < Size(j.pool, batch) {
      var i :| 0 <= i < |r| && r[i] == x;
      RanksAscend(j, batch, w.batch[i], w.batch[i]);
    }
  }

  lemma RanksBefore(j: Joint, batch: nat, a: LastWrite, b: LastWrite)
    requires HandOver.HandedInOrder(j.pool) && Numbered(j.pool.handed, j.uploads, |j.queue.actions|)
    requires PicksOf(j, batch, a) && PicksOf(j, batch, b) && AllBefore(a.batch, b.batch)
    ensures AllBefore(Ranks(j, batch, a), Ranks(j, batch, b))
  {
    hide HandOver.HandedInOrder, Numbered, IsPick, RankOf;
    var r, t := Ranks(j, batch, a), Ranks(j, batch, b);
    forall x, y | x in r && y in t ensures x < y {
      var i :| 0 <= i < |r| && r[i] == x;
      var k :| 0 <= k < |t| && t[k] == y;
      RanksAscend(j, batch, a.batch[i], b.batch[k]);
    }
  }

  lemma {:induction false} JobsOfRounds(j: Joint, batch: nat, writes: seq<LastWrite>, p: Position, last: Read)
    requires writes != [] && Uninterrupted(writes, p, last) && AllPicks(j, batch, writes)
    ensures Uninterrupted(writes[1..], p, last) && AllPicks(j, batch, writes[1..])
    ensures MultiAdd.JobsOf(RoundsOf(j, batch, writes, p, last))
            == Ranks(j, batch, writes[0]) + MultiAdd.JobsOf(RoundsOf(j, batch, writes[1..], p, last))
  {
    hide PicksOf, Happened, Undisturbed, RoundOf;
    var rounds := RoundsOf(j, batch, writes, p, last);
    RoundLater(writes[0].write, Ranks(j, batch, writes[0]), ListOf(NextRead(writes, last)));
    assert rounds[1..] == RoundsOf(j, batch, writes[1..], p, last);
  }

  lemma {:induction false} JobsBefore(j: Joint, batch: nat, a: LastWrite, writes: seq<LastWrite>, p: Position,
                                      last: Read)
    requires HandOver.HandedInOrder(j.pool) && Numbered(j.pool.handed, j.uploads, |j.queue.actions|)
    requires Uninterrupted(writes, p, last) && AllPicks(j, batch, writes) && PicksOf(j, batch, a)
    requires forall k :: 0 <= k < |writes| ==> AllBefore(a.batch, writes[k].batch)
    ensures AllBefore(Ranks(j, batch, a), MultiAdd.JobsOf(RoundsOf(j, batch, writes, p, last)))
    decreases |writes|
  {
    hide HandOver.HandedInOrder, Numbered, PicksOf, Uninterrupted, RoundsOf, MultiAdd.JobsOf;
    if writes == [] {
      NoRounds(j, batch, p, last);
    } else {
      JobsOfRounds(j, batch, writes, p, last);
      RanksBefore(j, batch, a, writes[0]);
      assert AllPicks(j, batch, writes) ==> PicksOf(j, batch, writes[0]);
      JobsBefore(j, batch, a, writes[1..], p, last);
    }
  }

  lemma {:induction false} NoRounds(j: Joint, batch: nat, p: Position, last: Read)
    ensures Uninterrupted([], p, last) && MultiAdd.JobsOf(RoundsOf(j, batch, [], p, last)) == []
  {
  }

  /** The jobs of the rounds, write after write, are in list order. */
  lemma {:induction false} JobsAscend(j: Joint, batch: nat, writes: seq<LastWrite>, p: Position, last: Read)
    requires HandOver.HandedInOrder(j.pool) && Numbered(j.pool.handed, j.uploads, |j.queue.actions|)
    requires Uninterrupted(writes, p, last) && AllPicks(j, batch, writes) && InOrder(writes)
    ensures var jobs := MultiAdd.JobsOf(RoundsOf(j, batch, writes, p, last));
      Ascends(jobs) && forall x :: x in jobs ==> x < Size(j.pool, batch)
    decreases |writes|
  {
    hide HandOver.HandedInOrder, Numbered, PicksOf, Uninterrupted, RoundsOf, MultiAdd.JobsOf, Size;
    if writes == [] {
      NoRounds(j, batch, p, last);
    } else {
      JobsOfRounds(j, batch, writes, p, last);
      JobsAscend(j, batch, writes[1..], p, last);
      WriteRanksAscend(j, batch, writes[0]);
      JobsBefore(j, batch, writes[0], writes[1..], p, last);
      MultiAdd.AscendsJoin(Ranks(j, batch, writes[0]), MultiAdd.JobsOf(RoundsOf(j, batch, writes[1..], p, last)));
    }
  }

  /** Some of the logged writes, in order. */
  function Selection(log: seq<LastWrite>, which: seq<nat>): (r: seq<LastWrite>)
    requires forall k :: k in which ==> k < |log|
    ensures |r| == |which| && forall i :: 0 <= i < |which| ==> which[i] in which && r[i] == log[which[i]]
  {
    seq(|which|, i requires 0 <= i < |which| => assert which[i] in which; log[which[i]])
  }

  /** These logged writes are all of one Tonie. */
  ghost predicate OneTonie(writes: seq<LastWrite>, key: Key) {
    forall i :: 0 <= i < |writes| ==> writes[i].write.target == key
  }

  lemma UploadsOfWrite(s: State, w: LastWrite, p: Position, n: nat)
    requires Logged(s, w) && MultiAdd.PicksAt(p, w.write.ops) && n in w.batch
    ensures n < |s.actions| && s.actions[n].IsUpload() && s.actions[n].key == w.write.target
  {
    hide Happened;
    var i :| 0 <= i < |w.batch| && w.batch[i] == n;
    assert CarriedOp(s, w, i);
  }

  lemma {:induction false} PicksOfWrites(writes: seq<LastWrite>, p: Position, last: Read, i: nat)
    requires Uninterrupted(writes, p, last) && i < |writes|
    ensures MultiAdd.PicksAt(p, writes[i].write.ops)
    decreases i
  {
    hide Happened, StillMatches, MultiAdd.GoneStaysGone, MultiAdd.PicksAt;
    if i > 0 { PicksOfWrites(writes[1..], p, last, i - 1); }
  }

  lemma {:induction false} ChosenInOrder(s: State, log: seq<LastWrite>, which: seq<nat>, key: Key, p: Position,
                                         last: Read)
    requires LogInOrder(s, log) && Ascends(which) && forall k :: k in which ==> k < |log|
    requires var writes := Selection(log, which); OneTonie(writes, key) && Uninterrupted(writes, p, last)
    ensures InOrder(Selection(log, which))
  {
    hide Uninterrupted, CarriedBy, MultiAdd.PicksAt;
    var writes := Selection(log, which);
    forall i | 0 <= i < |writes| ensures Logged(s, writes[i]) {
      assert Logged(s, log[which[i]]);
    }
    forall i, k, m, n | 0 <= i < k < |writes| && m in writes[i].batch && n in writes[k].batch ensures m < n {
      PicksOfWrites(writes, p, last, i);
      PicksOfWrites(writes, p, last, k);
      UploadsOfWrite(s, writes[i], p, m);
      UploadsOfWrite(s, writes[k], p, n);
      assert Before(s, log[which[i]].batch, log[which[k]].batch) && SameLane(s, m, n);
    }
  }

  /** These logged writes of a Tonie carried picks of the multi-add to one position, and nobody else edited the Tonie
      between them and up to the last read. */
  ghost predicate Carried(j: Joint, batch: nat, which: seq<nat>, key: Key, p: Position, last: Read) {
    && which != [] && Ascends(which) && (forall k :: k in which ==> k < |j.log|)
    && OneTonie(Selection(j.log, which), key) && AllPicks(j, batch, Selection(j.log, which))
    && Uninterrupted(Selection(j.log, which), p, last)
  }

  lemma {:induction false} FirstHappened(writes: seq<LastWrite>, p: Position, last: Read)
    requires writes != [] && Uninterrupted(writes, p, last)
    ensures Happened(writes[0].write)
  {
  }

  /** From top to bottom: the rows above, the picks that attached as one block, the rows below; and the block shows the
      picks in the order they were picked exactly when the position keeps it. */
  ghost predicate Shown(j: Joint, batch: nat, start: seq<Chapter>, rounds: seq<MultiAdd.Round>, p: Position)
    requires MultiAdd.Journey(start, rounds, p)
  {
    var top, room, landed := MultiAdd.Spot(p, start), MultiAdd.RoomAt(p, start), MultiAdd.Landed(start, rounds, p);
    var tags := MultiAdd.FinalTags(start, MultiAdd.Blank(|start|), rounds, p);
    && tags == MultiAdd.Blank(top) + MultiAdd.Tagged(MultiAdd.Shape(room, landed)) + MultiAdd.Blank(|start| - top)
    && (MultiAdd.InPickedOrder(p, Size(j.pool, batch), tags) <==> MultiAdd.KeepsOrder(p, room, |landed|))
  }

  lemma {:induction false} CarriedIsShown(j: Joint, batch: nat, which: seq<nat>, key: Key, p: Position, last: Read)
    requires HandOver.HandedInOrder(j.pool) && Numbered(j.pool.handed, j.uploads, |j.queue.actions|)
    requires LogInOrder(j.queue, j.log) && Carried(j, batch, which, key, p, last)
    ensures var writes := Selection(j.log, which);
      && Happened(writes[0].write)
      && var start, rounds := StartOf(writes[0].write), RoundsOf(j, batch, writes, p, last);
         MultiAdd.Journey(start, rounds, p) && Shown(j, batch, start, rounds, p)
  {
    hide HandOver.HandedInOrder, Numbered, LogInOrder, Uninterrupted, InOrder, AllPicks, RoundsOf, OneTonie, Happened,
         MultiAdd.Journey, MultiAdd.JobsOf, Ascends, Size, MultiAdd.Shape, MultiAdd.Spot, MultiAdd.RoomAt,
         MultiAdd.Landed, MultiAdd.FinalTags, MultiAdd.InPickedOrder, MultiAdd.KeepsOrder, StartOf, MultiAdd.Stored;
    var writes := Selection(j.log, which);
    FirstHappened(writes, p, last);
    WritesAreJourney(j, batch, writes, p, last);
    ChosenInOrder(j.queue, j.log, which, key, p, last);
    JobsAscend(j, batch, writes, p, last);
    var start, rounds := StartOf(writes[0].write), RoundsOf(j, batch, writes, p, last);
    MultiAdd.PicksStayTogether(start, rounds, p);
    MultiAdd.MultiAddOrderIff(start, rounds, p, Size(j.pool, batch));
  }

  /** One multi-add over any run of the pool and the queue: whichever of its picks confirmed writes carried to one
      position of a Tonie, and however many writes that took, they are shown as one block there, in the order they were
      picked exactly when the position keeps it. */
  lemma {:induction false} MultiAddOverRuns(workers: nat, moves: seq<Move>, batch: nat, which: seq<nat>, key: Key,
                                            p: Position, last: Read)
    requires Carried(JointRun(workers, moves), batch, which, key, p, last)
    ensures var j := JointRun(workers, moves);
      var writes := Selection(j.log, which);
      && Happened(writes[0].write)
      && var start, rounds := StartOf(writes[0].write), RoundsOf(j, batch, writes, p, last);
         MultiAdd.Journey(start, rounds, p) && Shown(j, batch, start, rounds, p)
  {
    hide JointRun, Holds, HandOver.HandedInOrder, Numbered, LogInOrder, Carried, HandOver.Started, HandOver.Turns,
         Flight, Happened, Shown, MultiAdd.Journey, RoundsOf, StartOf;
    CarriedIsShown(JointRun(workers, moves), batch, which, key, p, last);
  }
}
