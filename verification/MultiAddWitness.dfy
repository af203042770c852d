/** Two results picked at once, to be put after a chapter: from the empty pool and queue to a Tonie on which they stand
    upside down. */
module MultiAddWitness {
  import opened Lists
  import opened Planner
  import opened PlannerLaws
  import opened UndoSteps
  import opened UndoLaws
  import opened CloudContent
  import opened CloudWrite
  import opened CloudLaws
  import opened CloudCounterexamples
  import opened Queue
  import opened QueueRuns
  import opened QueueWitness
  import opened Pipeline
  import HandOver
  import MultiAdd

  const A := Chapter("a", "Aa", "f", 1.0, "file", Idle, None)
  const AFTER_A := Position(None, "", "a", None)
  const X := Attach("x", "Xx", 1.0, AFTER_A)
  const Y := Attach("y", "Yy", 1.0, AFTER_A)
  const PICKS := [X, Y]
  const BEFORE := Snapshot([A], 99.0, 100.0, 10.0)
  const PX := Chapter("px", "Xx", "fx", 1.0, "file", Idle, None)
  const PY := Chapter("py", "Yy", "fy", 1.0, "file", Idle, None)
  const AFTERWARDS := Snapshot([A, PY, PX], 97.0, 100.0, 10.0)
  const FILLED := [OpResult(None, Some("px")), OpResult(None, Some("py"))]
  const RECIPES := [Some(Remove("px")), Some(Remove("py"))]

  lemma NamesDiffer()
    ensures "a" != "x" && "a" != "y" && "f" != "x" && "f" != "y" && "Xx" != "Yy" && "x" != "y"
    ensures "px" != "py" && "px" != "a" && "py" != "a" && "px" != "x" && "px" != "y" && "py" != "x" && "py" != "y"
  {
    assert "a"[0] != "x"[0] && "a"[0] != "y"[0] && "f"[0] != "x"[0] && "f"[0] != "y"[0] && "Xx"[0] != "Yy"[0];
    assert "x"[0] != "y"[0] && "px"[1] != "py"[1] && |"px"| != |"a"| && |"py"| != |"x"|;
  }

  // ---- What the planner does ----

  /** An attach after the first row goes right behind it. */
  lemma AttachesAfterA(rules: Rules, draft: Draft, op: Op, number: nat)
    requires op.Attach? && op.position == AFTER_A && op.fileId != "" && op.fileId !in rules.existing
    requires op.title != "" && op.title !in draft.titles && |draft.work| > 0 && IsOnly(draft.work, "a", 0)
    requires rules.maxChapters.Allows((|draft.work| + 1) as real)
    requires CapacityAllows(rules.capacity, TotalSeconds(draft.work) + op.seconds)
    ensures ErrorOf(rules, draft, op, number).None?
    ensures AfterOne(rules, draft, op, number)
            == Draft([draft.work[0], NewChapter(op, number)] + draft.work[1..], draft.titles + {op.title})
  {
    hide TotalSeconds, CapacityAllows;
    assert AFTER_A != NOWHERE;
    assert InsertionIndex(draft.work, AFTER_A, false) == Success(1);
    assert InsertAt(draft.work, 1, NewChapter(op, number)) == [draft.work[0], NewChapter(op, number)] + draft.work[1..];
  }

  lemma PickTotals()
    ensures TotalSeconds([A]) == 1.0 && TotalSeconds([A, NewChapter(X, 0)]) == 2.0 && Capacity(BEFORE) == Finite(100.0)
  {
    TotalSingle(A);
    TotalAppend([A], [NewChapter(X, 0)]);
    TotalSingle(NewChapter(X, 0));
    assert [A] + [NewChapter(X, 0)] == [A, NewChapter(X, 0)];
  }

  lemma PicksAttach(retitle: TitleRule, capacity: Limit, maxChapters: Limit)
    requires CapacityAllows(capacity, 3.0) && CapacityAllows(capacity, 2.0) && maxChapters.Allows(3.0)
      && maxChapters.Allows(2.0)
    ensures var rules := BatchRules(retitle, [A], capacity, maxChapters);
      var start, one := Draft([A], {}), Draft([A, NewChapter(X, 0)], {"Xx"});
      && AfterOne(rules, start, X, 0) == one && ErrorOf(rules, start, X, 0).None?
      && AfterOne(rules, one, Y, 1) == Draft([A, NewChapter(Y, 1), NewChapter(X, 0)], {"Xx", "Yy"})
      && ErrorOf(rules, one, Y, 1).None?
  {
    hide TotalSeconds, AfterOne, ErrorOf, CapacityAllows;
    NamesDiffer();
    PickTotals();
    var rules := BatchRules(retitle, [A], capacity, maxChapters);
    assert forall id :: id in rules.existing ==> id == "a" || id == "f";
    var one := [A, NewChapter(X, 0)];
    assert IsOnly([A], "a", 0) && IsOnly(one, "a", 0);
    AttachesAfterA(rules, Draft([A], {}), X, 0);
    assert [A, NewChapter(X, 0)] + [A][1..] == one && {} + {"Xx"} == {"Xx"};
    AttachesAfterA(rules, Draft(one, {"Xx"}), Y, 1);
    assert [A, NewChapter(Y, 1)] + one[1..] == [A, NewChapter(Y, 1), NewChapter(X, 0)];
    assert {"Xx"} + {"Yy"} == {"Xx", "Yy"};
  }

  /** Two results picked for the place after a chapter: the planner takes both, the second above the first. */
  lemma PicksComeOutUpsideDown(retitle: TitleRule, capacity: Limit, maxChapters: Limit)
    requires CapacityAllows(capacity, 3.0) && CapacityAllows(capacity, 2.0) && maxChapters.Allows(3.0)
      && maxChapters.Allows(2.0)
    ensures var plan := PlanOps(retitle, [A], PICKS, capacity, maxChapters);
      && plan.errors == [None, None] && plan.draft.work == [A, NewChapter(Y, 1), NewChapter(X, 0)]
  {
    hide AfterOne, ErrorOf, CapacityAllows;
    PicksAttach(retitle, capacity, maxChapters);
    var rules := BatchRules(retitle, [A], capacity, maxChapters);
    var one := Draft([A, NewChapter(X, 0)], {"Xx"});
    var two := AfterOne(rules, one, Y, 1);
    assert PICKS[1..] == [Y] && [Y][1..] == [];
    assert PlanFrom(rules, two, [], 2) == Plan(two, []);
    assert PlanFrom(rules, one, [Y], 1) == Plan(two, [None]);
  }

  // ---- The write ----

  lemma PicksAreConfirmed()
    ensures ValidStart(Some(BEFORE)) && ValidRead(Some(AFTERWARDS)) && ProcessingIds(BEFORE.chapters) == {}
    ensures Confirmed(AFTERWARDS.chapters, [A], [A, NewChapter(Y, 1), NewChapter(X, 0)], {})
    ensures WithIds([OpResult(None, None), OpResult(None, None)], [A, NewChapter(Y, 1), NewChapter(X, 0)],
      AFTERWARDS.chapters, 3)
            == FILLED
  {
    NamesDiffer();
    var blank := [OpResult(None, None), OpResult(None, None)];
    var work, reply := [A, NewChapter(Y, 1), NewChapter(X, 0)], AFTERWARDS.chapters;
    assert WithIds(blank, work, reply, 0) == blank && WithIds(blank, work, reply, 1) == blank;
    assert WithIds(blank, work, reply, 2) == [OpResult(None, None), OpResult(None, Some("py"))];
  }

  lemma PickNames()
    ensures AssignedIds(PICKS, FILLED) == map["x" := "px", "y" := "py"]
  {
    NamesDiffer();
    assert PICKS[..1] == [X] && FILLED[..1] == [FILLED[0]] && [X][..0] == [];
    assert AssignedIds([X], [FILLED[0]]) == map["x" := "px"];
  }

  lemma PicksAreRecorded(retitle: TitleRule)
    ensures RecordFrom(retitle, AssignedIds(PICKS, FILLED), [A], PICKS, FILLED) == Success(RECIPES)
  {
    hide PlanOps, AssignedIds;
    NamesDiffer();
    PickNames();
    var names := AssignedIds(PICKS, FILLED);
    var rest := Replayed(retitle, [A], X, FILLED[0]);
    assert PICKS[1..] == [Y] && FILLED[1..] == [FILLED[1]];
    assert UndoSteps.Recorded(names, rest, Y, FILLED[1]) == Success(Some(Remove("py")));
    RecordSingle(retitle, names, rest, Y, FILLED[1]);
    assert UndoSteps.Recorded(names, [A], X, FILLED[0]) == Success(Some(Remove("px")));
    assert [Some(Remove("px"))] + [Some(Remove("py"))] == RECIPES;
  }

  function PicksWrite(retitle: TitleRule): Write {
    Made("tonie", retitle, BEFORE, PICKS, AFTERWARDS.chapters, AFTERWARDS, FILLED, RECIPES)
  }

  lemma PicksAreWritten(retitle: TitleRule)
    ensures Carriable(PicksWrite(retitle))
  {
    hide PlanFrom, WithIds, Confirmed, AssignedIds, RecordFrom, ReadBack, ApplyOutcome, ValidStart, ValidRead,
         ProcessingIds, Writable, PlanOps;
    PickTotals();
    PicksComeOutUpsideDown(retitle, Capacity(BEFORE), Finite(10.0));
    PicksAreConfirmed();
    PicksAreRecorded(retitle);
    var plan := SnapshotPlan(retitle, BEFORE, PICKS);
    assert ResultsOf(plan.errors) == [OpResult(None, None), OpResult(None, None)];
    assert plan.draft.work[1].mark.Some?;
    ReadIsValid(BEFORE);
    MarksAreInRange(retitle, BEFORE, PICKS);
    MadeHappens("tonie", retitle, BEFORE, PICKS, AFTERWARDS.chapters, AFTERWARDS, FILLED, RECIPES);
  }

  // ---- The run ----

  lemma {:induction false} PoolMove(workers: nat, moves: seq<Move>, step: HandOver.Event)
    requires !step.HandsOver?
    ensures var j := JointRun(workers, moves);
      JointRun(workers, moves + [Pools(step)]) == j.(pool := HandOver.Step(j.pool, step))
  {
    hide HandOver.Step, Together;
    assert (moves + [Pools(step)])[..|moves|] == moves;
    TogetherIsSane(JointRun(workers, moves));
  }

  lemma {:induction false} HandMove(workers: nat, moves: seq<Move>, job: nat, key: Key, title: string,
                                    position: Position, session: Session)
    requires var j := JointRun(workers, moves);
      HandOver.At(j.pool, job, HandOver.HandingOver) && key != "" && session !in j.queue.closed
    ensures var j, t := JointRun(workers, moves),
      JointRun(workers, moves + [HandsOver(job, key, title, position, session)]);
      && Sane(j.queue) && t.pool == HandOver.Step(j.pool, HandOver.HandsOver(job))
      && t.queue == Next(j.queue, SubmitUpload(key, title, position, session))
      && t.uploads == j.uploads + [|j.queue.actions|] && t.log == j.log
  {
    hide HandOver.Step, HandOver.At, Next, Together;
    assert (moves + [HandsOver(job, key, title, position, session)])[..|moves|] == moves;
    TogetherIsSane(JointRun(workers, moves));
  }

  lemma {:induction false} QueueMove(workers: nat, moves: seq<Move>, e: Event, run: seq<Event>)
    requires JointRun(workers, moves).queue == Reached(run)
    ensures Sane(Reached(run))
    ensures var j, t := JointRun(workers, moves), JointRun(workers, moves + [Queues(e)]);
      t.pool == j.pool && t.uploads == j.uploads && t.queue == Reached(run + [e])
        && t.log == j.log + Ended(Reached(run), e)
  {
    hide Next, Reached, Holds, Ended, Together;
    assert (moves + [Queues(e)])[..|moves|] == moves;
    TogetherIsSane(JointRun(workers, moves));
    ReachedOneMore(run, e);
  }

  function QueueMoves(es: seq<Event>): (r: seq<Move>)
    ensures |r| == |es| && forall i :: 0 <= i < |es| ==> r[i] == Queues(es[i])
  {
    seq(|es|, i requires 0 <= i < |es| => Queues(es[i]))
  }

  /** Until a write comes back, moves of the queue change the queue only. */
  lemma {:induction false} QuietMoves(workers: nat, moves: seq<Move>, es: seq<Event>, run: seq<Event>)
    requires JointRun(workers, moves).queue == Reached(run) && forall i :: 0 <= i < |es| ==> !es[i].WorkerDone?
    ensures var j, t := JointRun(workers, moves), JointRun(workers, moves + QueueMoves(es));
      t.pool == j.pool && t.uploads == j.uploads && t.log == j.log && t.queue == Reached(run + es)
    decreases |es|
  {
    hide JointRun, Reached, Holds, Next;
    if es == [] {
      assert moves + QueueMoves(es) == moves && run + es == run;
    } else {
      var n := |es| - 1;
      QuietMoves(workers, moves, es[..n], run);
      assert moves + QueueMoves(es) == moves + QueueMoves(es[..n]) + [Queues(es[n])];
      assert run + es == run + es[..n] + [es[n]];
      QueueMove(workers, moves + QueueMoves(es[..n]), es[n], run + es[..n]);
      assert JointRun(workers, moves + QueueMoves(es[..n])).log + [] == JointRun(workers, moves).log;
    }
  }

  const FIRST_TURN := [HandOver.Add(Some(0)), HandOver.Add(Some(0)), HandOver.Start, HandOver.Downloaded(0),
      HandOver.TakeTurn(0)]
  const SECOND_TURN := [HandOver.Finish(0), HandOver.Start, HandOver.Downloaded(1), HandOver.See(1),
      HandOver.TakeTurn(1)]

  function PoolMoves(steps: seq<HandOver.Event>): (r: seq<Move>)
    ensures |r| == |steps| && forall i :: 0 <= i < |steps| ==> r[i] == Pools(steps[i])
  {
    seq(|steps|, i requires 0 <= i < |steps| => Pools(steps[i]))
  }

  lemma {:induction false} PoolRun(workers: nat, moves: seq<Move>, steps: seq<HandOver.Event>)
    requires forall i :: 0 <= i < |steps| ==> !steps[i].HandsOver?
    ensures var j := JointRun(workers, moves);
      JointRun(workers, moves + PoolMoves(steps)) == j.(pool := HandOver.Run(j.pool, steps))
    decreases |steps|
  {
    hide JointRun, HandOver.Step;
    if steps == [] {
      assert moves + PoolMoves(steps) == moves;
    } else {
      var n := |steps| - 1;
      PoolRun(workers, moves, steps[..n]);
      assert moves + PoolMoves(steps) == moves + PoolMoves(steps[..n]) + [Pools(steps[n])];
      PoolMove(workers, moves + PoolMoves(steps[..n]), steps[n]);
    }
  }

  function Pool2(first: HandOver.Stage, second: HandOver.Stage, next: nat, handed: seq<nat>): HandOver.Pool {
    HandOver.Pool(1, [HandOver.Job(Some(0), first), HandOver.Job(Some(0), second)], next, handed)
  }

  lemma {:induction false} Then(p: HandOver.Pool, steps: seq<HandOver.Event>, e: HandOver.Event)
    ensures HandOver.Run(p, steps + [e]) == HandOver.Step(HandOver.Run(p, steps), e)
  {
    hide HandOver.Step;
    assert (steps + [e])[..|steps|] == steps;
  }

  /** Five steps, one after another. */
  lemma {:induction false} FiveSteps(p: HandOver.Pool, e: seq<HandOver.Event>)
    requires |e| == 5
    ensures var p2 := HandOver.Step(HandOver.Step(p, e[0]), e[1]);
      HandOver.Run(p, e) == HandOver.Step(HandOver.Step(HandOver.Step(p2, e[2]), e[3]), e[4])
  {
    hide HandOver.Step;
    assert e[..0] == [] && e[..0] + [e[0]] == e[..1] && e[..1] + [e[1]] == e[..2] && e[..2] + [e[2]] == e[..3];
    assert e[..3] + [e[3]] == e[..4] && e[..4] + [e[4]] == e;
    assert HandOver.Run(p, []) == p;
    hide HandOver.Run;
    Then(p, e[..0], e[0]);
    Then(p, e[..1], e[1]);
    Then(p, e[..2], e[2]);
    Then(p, e[..3], e[3]);
    Then(p, e[..4], e[4]);
  }

  lemma Starts(first: HandOver.Stage, next: nat, handed: seq<nat>)
    requires (next == 0 && first == HandOver.Queued) || (next == 1 && first == HandOver.Finished)
    ensures HandOver.Step(Pool2(first, HandOver.Queued, next, handed), HandOver.Start)
            == if next == 0 then Pool2(HandOver.Downloading, HandOver.Queued, 1, handed)
               else Pool2(first, HandOver.Downloading, 2, handed)
  {
    var p := Pool2(first, HandOver.Queued, next, handed);
    assert HandOver.Running(p) == {};
    if next == 0 {
      assert p.jobs[0 := p.jobs[0].(stage := HandOver.Downloading)]
        == Pool2(HandOver.Downloading, HandOver.Queued, 1, handed).jobs;
    } else {
      assert p.jobs[1 := p.jobs[1].(stage := HandOver.Downloading)]
        == Pool2(first, HandOver.Downloading, 2, handed).jobs;
    }
  }

  lemma AddsTwo()
    ensures HandOver.Step(HandOver.Step(HandOver.Empty(1), HandOver.Add(Some(0))), HandOver.Add(Some(0)))
            == Pool2(HandOver.Queued, HandOver.Queued, 0, [])
  {
  }

  lemma FirstTurns()
    ensures HandOver.Step(Pool2(HandOver.Downloading, HandOver.Queued, 1, []), HandOver.Downloaded(0))
            == Pool2(HandOver.Waiting(0), HandOver.Queued, 1, [])
    ensures HandOver.Step(Pool2(HandOver.Waiting(0), HandOver.Queued, 1, []), HandOver.TakeTurn(0))
            == Pool2(HandOver.HandingOver, HandOver.Queued, 1, [])
  {
    assert HandOver.Earlier(Pool2(HandOver.Waiting(0), HandOver.Queued, 1, []), 0) == [];
  }

  lemma FirstSteps()
    ensures HandOver.Run(HandOver.Empty(1), FIRST_TURN) == Pool2(HandOver.HandingOver, HandOver.Queued, 1, [])
  {
    hide HandOver.Step, HandOver.Run, Pool2;
    AddsTwo();
    Starts(HandOver.Queued, 0, []);
    FirstTurns();
    FiveSteps(HandOver.Empty(1), FIRST_TURN);
  }

  lemma Finishes1()
    ensures HandOver.Step(Pool2(HandOver.Finishing, HandOver.Queued, 1, [0]), HandOver.Finish(0))
            == Pool2(HandOver.Finished, HandOver.Queued, 1, [0])
    ensures HandOver.Step(Pool2(HandOver.Finished, HandOver.Downloading, 2, [0]), HandOver.Downloaded(1))
            == Pool2(HandOver.Finished, HandOver.Waiting(0), 2, [0])
  {
  }

  lemma SecondTurns()
    ensures HandOver.Step(Pool2(HandOver.Finished, HandOver.Waiting(0), 2, [0]), HandOver.See(1))
            == Pool2(HandOver.Finished, HandOver.Waiting(1), 2, [0])
    ensures HandOver.Step(Pool2(HandOver.Finished, HandOver.Waiting(1), 2, [0]), HandOver.TakeTurn(1))
            == Pool2(HandOver.Finished, HandOver.HandingOver, 2, [0])
  {
    OnlyOneEarlier(Pool2(HandOver.Finished, HandOver.Waiting(0), 2, [0]));
    OnlyOneEarlier(Pool2(HandOver.Finished, HandOver.Waiting(1), 2, [0]));
    hide HandOver.Earlier;
  }

  lemma SecondSteps()
    ensures HandOver.Run(Pool2(HandOver.Finishing, HandOver.Queued, 1, [0]), SECOND_TURN)
            == Pool2(HandOver.Finished, HandOver.HandingOver, 2, [0])
  {
    hide HandOver.Step, HandOver.Run, Pool2;
    Finishes1();
    Starts(HandOver.Finished, 1, [0]);
    SecondTurns();
    FiveSteps(Pool2(HandOver.Finishing, HandOver.Queued, 1, [0]), SECOND_TURN);
  }

  lemma OnlyOneEarlier(p: HandOver.Pool)
    requires |p.jobs| == 2 && p.jobs[0].batch == p.jobs[1].batch == Some(0)
    ensures HandOver.Earlier(p, 1) == [0]
  {
    assert HandOver.EarlierBelow(p, 1, 0) == [] && HandOver.EarlierBelow(p, 1, 1) == [0];
  }

  /** Both are downloaded and handed over in list order, sent, and written. */
  const HANDED := PoolMoves(FIRST_TURN) + [HandsOver(0, "tonie", "Xx", AFTER_A, 0)]
    + PoolMoves(SECOND_TURN) + [HandsOver(1, "tonie", "Yy", AFTER_A, 0)]

  function WrittenRun(retitle: TitleRule): seq<Move> {
    HANDED + QueueMoves(Transfers(PICKS, 2) + Writes(PicksWrite(retitle)))
  }

  lemma FirstSubmitted()
    ensures var submits := Submissions("tonie", PICKS, 0);
      Reached(submits[..1]) == Next(INIT, submits[0])
  {
    hide Reached, Next, Submissions;
    var submits := Submissions("tonie", PICKS, 0);
    assert submits[..1] == [] + [submits[0]];
    ReachedNothing();
    ReachedOneMore([], submits[0]);
  }

  lemma HandsFirst()
    ensures HandOver.Step(Pool2(HandOver.HandingOver, HandOver.Queued, 1, []), HandOver.HandsOver(0))
            == Pool2(HandOver.Finishing, HandOver.Queued, 1, [0])
  {
  }

  lemma NobodyHandsOver()
    ensures forall i :: 0 <= i < |FIRST_TURN| ==> !FIRST_TURN[i].HandsOver?
  {
  }

  lemma FirstTurn()
    ensures JointRun(1, PoolMoves(FIRST_TURN))
            == Joint(Pool2(HandOver.HandingOver, HandOver.Queued, 1, []), INIT, [], [])
  {
    hide JointRun, HandOver.Run, HandOver.Step, Pool2, FIRST_TURN, PoolMoves, INIT;
    NobodyHandsOver();
    assert [] + PoolMoves(FIRST_TURN) == PoolMoves(FIRST_TURN);
    StartOfRun();
    PoolRun(1, [], FIRST_TURN);
    FirstSteps();
  }

  lemma FirstSubmit()
    ensures var submits := Submissions("tonie", PICKS, 0);
      |submits| == 2 && submits[0] == SubmitUpload("tonie", "Xx", AFTER_A, 0)
      && submits[1] == SubmitUpload("tonie", "Yy", AFTER_A, 0)
  {
  }

  lemma FirstAtTurn()
    ensures HandOver.At(Pool2(HandOver.HandingOver, HandOver.Queued, 1, []), 0, HandOver.HandingOver)
  {
  }

  lemma FirstHanded()
    ensures var j := JointRun(1, PoolMoves(FIRST_TURN) + [HandsOver(0, "tonie", "Xx", AFTER_A, 0)]);
      && j.pool == Pool2(HandOver.Finishing, HandOver.Queued, 1, [0]) && j.uploads == [0] && j.log == []
      && j.queue == Reached(Submissions("tonie", PICKS, 0)[..1])
  {
    hide JointRun, Reached, Next, HandOver.At, HandOver.Step, Pool2, PoolMoves, Submissions, Sane;
    FirstTurn();
    FirstAtTurn();
    HandMove(1, PoolMoves(FIRST_TURN), 0, "tonie", "Xx", AFTER_A, 0);
    FirstSubmit();
    FirstSubmitted();
    HandsFirst();
  }

  lemma StartOfRun()
    ensures JointRun(1, []) == Joint(HandOver.Empty(1), INIT, [], [])
  {
  }

  lemma BothHanded()
    ensures var j := JointRun(1, HANDED);
      && j.pool == Pool2(HandOver.Finished, HandOver.Finishing, 2, [0, 1]) && j.uploads == [0, 1] && j.log == []
      && j.queue == Reached(Submissions("tonie", PICKS, 0))
  {
    hide JointRun, Reached, Holds, Next, HandOver.Run, Submissions, Filled;
    var one := PoolMoves(FIRST_TURN) + [HandsOver(0, "tonie", "Xx", AFTER_A, 0)];
    FirstHanded();
    PoolRun(1, one, SECOND_TURN);
    SecondSteps();
    var submits := Submissions("tonie", PICKS, 0);
    AllSubmitted("tonie", PICKS, 0, 1);
    OneAction(Reached(submits[..1]));
    HandMove(1, one + PoolMoves(SECOND_TURN), 1, "tonie", "Yy", AFTER_A, 0);
    assert submits == submits[..1] + [submits[1]];
    ReachedOneMore(submits[..1], submits[1]);
    assert HandOver.Step(Pool2(HandOver.Finished, HandOver.HandingOver, 2, [0]), HandOver.HandsOver(1))
           == Pool2(HandOver.Finished, HandOver.Finishing, 2, [0, 1]);
  }

  lemma OneAction(s: State)
    requires Filled(s, "tonie", PICKS, 0, 1, 0)
    ensures |s.actions| == 1 && s.closed == {}
  {
  }

  lemma AllMoved(retitle: TitleRule)
    ensures var w, j := PicksWrite(retitle), JointRun(1, WrittenRun(retitle));
      && Happened(w) && j.pool == Pool2(HandOver.Finished, HandOver.Finishing, 2, [0, 1]) && j.uploads == [0, 1]
      && j.log == [LastWrite(Numbers(0, 2), w)] && j.queue == Reached(RunOf(w))
  {
    hide JointRun, Reached, Holds, Next, Submissions, Transfers, Ended, Happened, Submittable, HANDED;
    var w := PicksWrite(retitle);
    var submits := Submissions("tonie", PICKS, 0);
    var quiet := Transfers(PICKS, 2) + [WorkerLook("tonie", 0.0), WorkerCollect("tonie")];
    var done := WorkerDone("tonie", Called(0, retitle, w.cloud));
    BothHanded();
    PicksAreWritten(retitle);
    TransfersAreQuiet(PICKS, 2);
    QuietMoves(1, HANDED, quiet, submits);
    assert Transfers(PICKS, 2) + Writes(w) == quiet + [done];
    assert WrittenRun(retitle) == HANDED + QueueMoves(quiet) + [Queues(done)];
    assert RunOf(w) == submits + quiet + [done];
    QueueMove(1, HANDED + QueueMoves(quiet), done, submits + quiet);
    AllSent("tonie", PICKS, 0, 2);
    assert submits + quiet == submits + Transfers(PICKS, 2) + [WorkerLook("tonie", 0.0)] + [WorkerCollect("tonie")];
    CollectedForWrite(submits + Transfers(PICKS, 2), w);
    HoldsParts(Reached(submits + quiet));
    EndsWrite(Reached(submits + quiet), w);
  }

  lemma {:induction false} TransfersAreQuiet(ops: seq<Op>, n: nat)
    requires n <= |ops|
    ensures forall i :: 0 <= i < |Transfers(ops, n)| ==> !Transfers(ops, n)[i].WorkerDone?
    decreases n
  {
    if n > 0 { TransfersAreQuiet(ops, n - 1); }
  }

  lemma EndsWrite(s: State, w: Write)
    requires Sane(s) && Carriable(w) && InWrite(s, w.target, w.ops, w.session)
    ensures Ended(s, WorkerDone(w.target, Called(w.session, w.retitle, w.cloud))) == [LastWrite(Numbers(0, |w.ops|), w)]
  {
    hide ApplyOutcome, Numbers, InWrite, OpsOf, Submittable, Sane;
    InWriteWrites(s, w);
    InWriteFits(s, w.target, w.ops, w.session);
  }

  // ---- What the Tonie shows ----

  lemma BothArePicks(j: Joint, n: nat)
    requires j.pool == Pool2(HandOver.Finished, HandOver.Finishing, 2, [0, 1]) && j.uploads == [0, 1] && n < 2
    ensures IsPick(j, 0, n) && RankOf(j, 0, n) == n
  {
    assert [0, 1][n] == n && n in [0, 1];
    var i := IndexOf(j.uploads, n);
    assert i == n;
    assert CountBelow(j.pool, 0, 0) == 0 && CountBelow(j.pool, 0, 1) == 1;
  }

  lemma PicksAreUndisturbed(retitle: TitleRule)
    ensures var w := PicksWrite(retitle); Happened(w) && Undisturbed(w, AFTER_A, Some(AFTERWARDS))
  {
    hide ApplyOutcome, Writable, NewIds;
    PicksAreWritten(retitle);
    PicksAreConfirmed();
    var w := PicksWrite(retitle);
    MatchesIsEquivalence(w.receipt.expected, w.receipt.expected, w.receipt.expected, w.receipt.processing,
      w.receipt.processing);
    assert StartOf(w) == [A] && "a" in Ids([A]) by { assert [A][0].id == "a"; }
  }

  lemma PicksAreCarried(retitle: TitleRule)
    ensures Carried(JointRun(1, WrittenRun(retitle)), 0, [0], "tonie", AFTER_A, Some(AFTERWARDS))
  {
    hide JointRun, WrittenRun, Reached, Holds, RunOf, Happened, Undisturbed, IsPick, RankOf;
    var j, w := JointRun(1, WrittenRun(retitle)), PicksWrite(retitle);
    AllMoved(retitle);
    PicksAreUndisturbed(retitle);
    BothArePicks(j, 0);
    BothArePicks(j, 1);
    var writes := Selection(j.log, [0]);
    assert writes == [LastWrite(Numbers(0, 2), w)] && writes[1..] == [];
    assert Uninterrupted(writes[1..], AFTER_A, Some(AFTERWARDS));
    forall n | n in writes[0].batch ensures IsPick(j, 0, n) {
      assert n in Numbers(0, 2);
    }
  }

  lemma RoomBehindA()
    ensures MultiAdd.RoomAt(AFTER_A, [A]) == MultiAdd.Room(0) && MultiAdd.Spot(AFTER_A, [A]) == 1
    ensures MultiAdd.Shape<nat>(MultiAdd.Room(0), [0, 1]) == [1, 0]
    ensures !MultiAdd.KeepsOrder(AFTER_A, MultiAdd.Room(0), 2)
  {
    assert AFTER_A != NOWHERE && IsOnly([A], "a", 0);
    assert [0, 1][1..] == [1] && [1][1..] == [];
    assert MultiAdd.Shape<nat>(MultiAdd.Room(0), []) == [];
    assert MultiAdd.Shape<nat>(MultiAdd.Room(0), [1]) == [1];
  }

  lemma {:induction false} BothLand(retitle: TitleRule, j: Joint, writes: seq<LastWrite>)
    requires j.pool == Pool2(HandOver.Finished, HandOver.Finishing, 2, [0, 1]) && j.uploads == [0, 1]
    requires Happened(PicksWrite(retitle)) && writes == [LastWrite(Numbers(0, 2), PicksWrite(retitle))]
    requires Uninterrupted(writes, AFTER_A, Some(AFTERWARDS)) && AllPicks(j, 0, writes)
    requires MultiAdd.Journey([A], RoundsOf(j, 0, writes, AFTER_A, Some(AFTERWARDS)), AFTER_A)
    ensures MultiAdd.Landed([A], RoundsOf(j, 0, writes, AFTER_A, Some(AFTERWARDS)), AFTER_A) == [0, 1]
  {
    hide ApplyOutcome, IsPick, RankOf, Undisturbed, MultiAdd.Follows, PlanFrom, NewIds, Writable;
    var w := PicksWrite(retitle);
    var rounds := RoundsOf(j, 0, writes, AFTER_A, Some(AFTERWARDS));
    BothArePicks(j, 0);
    BothArePicks(j, 1);
    assert writes[1..] == [] && rounds[1..] == [];
    var jobs := Ranks(j, 0, writes[0]);
    assert jobs == [0, 1];
    PickTotals();
    PicksComeOutUpsideDown(retitle, Capacity(BEFORE), Finite(10.0));
    assert MultiAdd.PlanOfRound([A], rounds[0]).errors == [None, None];
    BothErrorFree(jobs);
  }

  lemma {:induction false} BothErrorFree(jobs: seq<nat>)
    requires jobs == [0, 1]
    ensures MultiAdd.LandedIn([None, None], jobs) == [0, 1]
  {
    assert jobs[1..] == [1] && [1][1..] == [];
    var errors: seq<Option<OpError>> := [None, None];
    assert errors[1..] == [None] && errors[1..][1..] == [];
    assert MultiAdd.LandedIn(errors[1..], [1]) == [1];
  }

  /** From the empty pool and queue: two results are picked for the place after a chapter, downloaded, handed over in
      list order, sent, and written in one confirmed write. Both attach, and the second picked stands
      above the first. */
  lemma UpsideDownIsReachable(retitle: TitleRule)
    ensures var j, last := JointRun(1, WrittenRun(retitle)), Some(AFTERWARDS);
      && Carried(j, 0, [0], "tonie", AFTER_A, last)
      && var writes := Selection(j.log, [0]);
         && Happened(writes[0].write) && StartOf(writes[0].write) == [A]
         && var rounds := RoundsOf(j, 0, writes, AFTER_A, last);
            && MultiAdd.Journey([A], rounds, AFTER_A)
            && var tags := MultiAdd.FinalTags([A], MultiAdd.Blank(1), rounds, AFTER_A);
               tags == [None, Some(1), Some(0)] && !MultiAdd.InPickedOrder(AFTER_A, Size(j.pool, 0), tags)
  {
    hide JointRun, WrittenRun, Reached, Holds, RunOf, Happened, Uninterrupted, AllPicks, RoundsOf, MultiAdd.Journey,
         MultiAdd.FinalTags, MultiAdd.InPickedOrder, MultiAdd.Landed, MultiAdd.RoomAt, MultiAdd.Spot,
         MultiAdd.KeepsOrder, MultiAdd.Shape, Size, OneTonie, StartOf, Shown;
    var j, w := JointRun(1, WrittenRun(retitle)), PicksWrite(retitle);
    AllMoved(retitle);
    PicksAreCarried(retitle);
    MultiAddOverRuns(1, WrittenRun(retitle), 0, [0], "tonie", AFTER_A, Some(AFTERWARDS));
    var writes := Selection(j.log, [0]);
    assert writes == [LastWrite(Numbers(0, 2), w)];
    PicksStart(retitle);
    BothLand(retitle, j, writes);
    ShownUpsideDown(j, RoundsOf(j, 0, writes, AFTER_A, Some(AFTERWARDS)));
  }

  lemma {:induction false} ShownUpsideDown(j: Joint, rounds: seq<MultiAdd.Round>)
    requires MultiAdd.Journey([A], rounds, AFTER_A) && Shown(j, 0, [A], rounds, AFTER_A)
    requires MultiAdd.Landed([A], rounds, AFTER_A) == [0, 1]
    ensures var tags := MultiAdd.FinalTags([A], MultiAdd.Blank(1), rounds, AFTER_A);
      tags == [None, Some(1), Some(0)] && !MultiAdd.InPickedOrder(AFTER_A, Size(j.pool, 0), tags)
  {
    hide MultiAdd.Journey, MultiAdd.FinalTags, MultiAdd.InPickedOrder, MultiAdd.Landed, MultiAdd.RoomAt, MultiAdd.Spot,
         MultiAdd.KeepsOrder, MultiAdd.Shape, Size;
    RoomBehindA();
    assert |[A]| == 1;
    assert MultiAdd.Blank(1) + MultiAdd.Tagged([1, 0]) + MultiAdd.Blank(0) == [None, Some(1), Some(0)];
  }

  lemma PicksStart(retitle: TitleRule)
    requires Happened(PicksWrite(retitle))
    ensures StartOf(PicksWrite(retitle)) == [A]
  {
    hide ApplyOutcome;
  }
}
