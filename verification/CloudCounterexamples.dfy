/** Two clouds with which undo goes wrong: one hands out a staging id as a permanent id, the other a
    staging id twice. */
module CloudCounterexamples {
  import opened Lists
  import opened Planner
  import opened PlannerLaws
  import opened UndoSteps
  import opened UndoLaws
  import opened CloudContent
  import opened CloudWrite
  import opened CloudLaws

  // ---- Writes by hand ----

  /** A write that the cloud accepted with this reply, and showed at the first poll. */
  function Made(target: string, retitle: TitleRule, s: Snapshot, ops: seq<Op>, reply: seq<Chapter>, poll: Snapshot,
                results: seq<OpResult>, steps: seq<Option<Step>>): Write
  {
    Write(0, target, retitle, ops, Cloud(Some(s), Some(reply), [Some(poll)]), results,
          UndoReceipt(0, target, Writable(reply), steps, ProcessingIds(s.chapters) + NewIds(results)))
  }

  lemma {:induction false} MadeHappens(target: string, retitle: TitleRule, s: Snapshot, ops: seq<Op>,
                                       reply: seq<Chapter>, poll: Snapshot, results: seq<OpResult>,
                                       steps: seq<Option<Step>>)
    requires ValidStart(Some(s)) && ValidRead(Some(poll)) && poll.chapters == reply && |results| == |ops|
    requires var work := SnapshotPlan(retitle, s, ops).draft.work;
      AnyAttached(work) && |work| != |s.chapters| && Confirmed(reply, s.chapters, work, ProcessingIds(s.chapters))
    requires var plan := SnapshotPlan(retitle, s, ops);
      DistinctMarks(plan.draft.work, |ops|)
        && results == WithIds(ResultsOf(plan.errors), plan.draft.work, reply, |plan.draft.work|)
    requires RecordFrom(retitle, AssignedIds(ops, results), s.chapters, ops, results) == Success(steps)
    ensures Happened(Made(target, retitle, s, ops, reply, poll, results, steps))
  {
    hide PlanFrom, WithIds, Confirmed, AssignedIds, RecordFrom, ValidStart, ValidRead, Matches, NewIds, ProcessingIds,
         SnapshotPlan, DistinctMarks;
    var work := SnapshotPlan(retitle, s, ops).draft.work;
    assert |Writable(work)| != |Writable(s.chapters)|;
    var processing := ProcessingIds(s.chapters) + NewIds(results);
    MatchesIsEquivalence(Writable(reply), Writable(reply), Writable(reply), processing, processing);
    ShownAtOnce(poll, Writable(reply), processing);
  }

  lemma {:induction false} ShownAtOnce(poll: Snapshot, expected: seq<Row>, processing: set<string>)
    requires ValidRead(Some(poll)) && Matches(Writable(poll.chapters), expected, processing)
    ensures ReadBack([Some(poll)], expected, processing, READBACK_ATTEMPTS) == Some(poll)
  {
  }

  // ---- A staging id as a permanent id ----

  const FIRST := Attach("s0", "First", 1.0, NOWHERE)
  const SECOND := Attach("s1", "Second", 1.0, NOWHERE)
  const UPLOADS := [FIRST, SECOND]
  const EMPTY := Snapshot([], 100.0, 100.0, 10.0)

  /** The reply files the second upload under the first one's staging id. */
  const REPLY := [
    Chapter("p0", "First", "f0", 1.0, "file", Idle, None),
    Chapter("s0", "Second", "f1", 1.0, "file", Idle, None)]

  const SHOWN := Snapshot(REPLY, 98.0, 100.0, 10.0)

  function Planned(): seq<Chapter> {
    [NewChapter(FIRST, 0), NewChapter(SECOND, 1)]
  }

  lemma StringsDiffer()
    ensures "s0" != "s1" && "p0" != "s0" && "p0" != "s1" && "First" != "Second"
  {
    assert "s0"[1] != "s1"[1] && "p0"[0] != "s0"[0] && "p0"[0] != "s1"[0] && "First"[0] != "Second"[0];
  }

  lemma PlanOfUploads(retitle: TitleRule)
    ensures var plan := SnapshotPlan(retitle, EMPTY, UPLOADS);
      plan.draft.work == Planned() && plan.errors == [None, None]
  {
    StringsDiffer();
    var rules := BatchRules(retitle, [], Capacity(EMPTY), Finite(10.0));
    var one := Draft([NewChapter(FIRST, 0)], {"First"});
    assert AfterOne(rules, Draft([], {}), FIRST, 0) == one && ErrorOf(rules, Draft([], {}), FIRST, 0).None?;
    TotalSingle(NewChapter(FIRST, 0));
    assert InsertionIndex(one.work, NOWHERE, false) == Success(1);
    var two := AfterOne(rules, one, SECOND, 1);
    assert two.work == Planned() && ErrorOf(rules, one, SECOND, 1).None?;
    assert UPLOADS[1..] == [SECOND] && [SECOND][1..] == [];
    assert PlanFrom(rules, two, [], 2) == Plan(two, []);
    assert PlanFrom(rules, one, [SECOND], 1) == Plan(two, [None]);
  }

  lemma ReplyIsConfirmed()
    ensures Confirmed(REPLY, [], Planned(), {})
    ensures WithIds([OpResult(None, None), OpResult(None, None)], Planned(), REPLY, 2)
            == [OpResult(None, Some("p0")), OpResult(None, Some("s0"))]
  {
    StringsDiffer();
    var blank := [OpResult(None, None), OpResult(None, None)];
    assert WithIds(blank, Planned(), REPLY, 0) == blank;
    assert WithIds(blank, Planned(), REPLY, 1) == [OpResult(None, Some("p0")), OpResult(None, None)];
  }

  const RESULTS := [OpResult(None, Some("p0")), OpResult(None, Some("s0"))]

  lemma MapOfUploads()
    ensures AssignedIds(UPLOADS, RESULTS) == map["s0" := "p0", "s1" := "s0"]
  {
    StringsDiffer();
    assert UPLOADS[..1] == [FIRST] && RESULTS[..1] == [RESULTS[0]] && [FIRST][..0] == [];
    assert AssignedIds([FIRST], [RESULTS[0]]) == map["s0" := "p0"];
  }

  /** Both recipes name the first chapter. */
  const STEPS := [Some(Remove("p0")), Some(Remove("p0"))]

  lemma UploadsAreRecorded(retitle: TitleRule)
    ensures RecordFrom(retitle, AssignedIds(UPLOADS, RESULTS), [], UPLOADS, RESULTS) == Success(STEPS)
  {
    hide PlanOps, AssignedIds;
    StringsDiffer();
    MapOfUploads();
    var names := AssignedIds(UPLOADS, RESULTS);
    var rest := Replayed(retitle, [], FIRST, RESULTS[0]);
    assert UPLOADS[1..] == [SECOND] && RESULTS[1..] == [RESULTS[1]];
    assert Recorded(names, rest, SECOND, RESULTS[1]) == Success(Some(Remove("p0")));
    RecordSingle(retitle, names, rest, SECOND, RESULTS[1]);
    assert Recorded(names, [], FIRST, RESULTS[0]) == Success(Some(Remove("p0")));
    assert [Some(Remove("p0"))] + [Some(Remove("p0"))] == STEPS;
  }

  /** The finished write: the second upload got the first one's staging id. */
  function Crossed(retitle: TitleRule): Write {
    Made("tonie", retitle, EMPTY, UPLOADS, REPLY, SHOWN, RESULTS, STEPS)
  }

  lemma ShownIsValid()
    ensures ValidStart(Some(EMPTY)) && ValidRead(Some(SHOWN)) && ProcessingIds(EMPTY.chapters) == {}
  {
    StringsDiffer();
  }

  lemma CrossedHappens(retitle: TitleRule)
    ensures Happened(Crossed(retitle))
  {
    hide PlanFrom, WithIds, Confirmed, AssignedIds, RecordFrom, ReadBack, ApplyOutcome, ValidStart, ValidRead,
         ProcessingIds, Writable;
    PlanOfUploads(retitle);
    ReplyIsConfirmed();
    ShownIsValid();
    UploadsAreRecorded(retitle);
    var plan := SnapshotPlan(retitle, EMPTY, UPLOADS);
    assert ResultsOf(plan.errors) == [OpResult(None, None), OpResult(None, None)];
    assert plan.draft.work[0].mark.Some?;
    MarksAreInRange(retitle, EMPTY, UPLOADS);
    MadeHappens("tonie", retitle, EMPTY, UPLOADS, REPLY, SHOWN, RESULTS, STEPS);
  }

  lemma CrossedTalks(retitle: TitleRule)
    ensures Happened(Crossed(retitle)) && !NoCrossTalk(Crossed(retitle), 1)
  {
    CrossedHappens(retitle);
    hide ApplyOutcome;
    StringsDiffer();
    MapOfUploads();
    var w := Crossed(retitle);
    assert w.results[1].chapterId == Some("s0") && Image(NamesOf(w), "s0") == "p0";
  }

  /** Undoing the second upload of that write, on a list that still matches, removes the first chapter instead. */
  lemma CrossTalkRemovesTheWrongChapter(retitle: TitleRule)
    ensures var w := Crossed(retitle);
      && Happened(w) && !NoCrossTalk(w, 1) && HasRecipes(w.receipt.steps, 1)
      && Matches(Writable(REPLY), w.receipt.expected, w.receipt.processing)
      && !TailShown(w, 1, REPLY) && ApplySteps(REPLY, Backwards(w.receipt.steps[1..])) == Success([REPLY[1]])
  {
    CrossedTalks(retitle);
    hide ApplyOutcome, NoCrossTalk;
    var w := Crossed(retitle);
    MatchesIsEquivalence(Writable(REPLY), Writable(REPLY), Writable(REPLY), w.receipt.processing, w.receipt.processing);
    LastStepOnly();
    WrongRowRemoved();
    LastUploadUndoneIff(w, REPLY);
  }

  lemma LastStepOnly()
    ensures Backwards(STEPS[1..]) == [Remove("p0")]
  {
    assert STEPS[1..] == [STEPS[1]] && [STEPS[1]][1..] == [];
    assert Backwards([]) == [];
  }

  lemma WrongRowRemoved()
    ensures ApplySteps(REPLY, [Remove("p0")]) == Success([REPLY[1]])
  {
    StringsDiffer();
    assert IsOnly(REPLY, "p0", 0);
    assert RemoveAt(REPLY, 0) == [REPLY[1]];
    assert [Remove("p0")][1..] == [];
  }

  // ---- A staging id twice ----

  const ONE := Attach("s0", "Aa", 1.0, NOWHERE)
  const TWO := Attach("s0", "Bb", 1.0, NOWHERE)
  const TO_END := Move(Target("c", None, None), Position(Some(End), "", "", None))
  const TWICE := [ONE, TWO, TO_END]
  const C := Chapter("c", "Cc", "f", 1.0, "file", Idle, None)
  const P0 := Chapter("p0", "Aa", "f0", 1.0, "file", Idle, None)
  const P1 := Chapter("p1", "Bb", "f1", 1.0, "file", Idle, None)
  const ONLY_C := Snapshot([C], 99.0, 100.0, 10.0)
  const ALL_THREE := Snapshot([P0, P1, C], 97.0, 100.0, 10.0)
  const THREE_RESULTS := [OpResult(None, Some("p0")), OpResult(None, Some("p1")), OpResult(None, None)]

  lemma LettersDiffer()
    ensures "c" != "s0" && "p0" != "p1" && "p0" != "c" && "p1" != "c" && "p0" != "s0" && "p1" != "s0" && "Aa" != "Bb"
      && "f" != "s0"
  {
    assert "p0"[1] != "p1"[1] && "p0"[0] != "c"[0] && "p1"[0] != "c"[0] && "p0"[0] != "s0"[0] && "p1"[0] != "s0"[0];
    assert "c"[0] != "s0"[0] && "Aa"[0] != "Bb"[0] && "f"[0] != "s0"[0];
  }

  /** The rules of that batch. */
  function TwiceRules(retitle: TitleRule): Rules {
    BatchRules(retitle, [C], Capacity(ONLY_C), Finite(10.0))
  }

  lemma AttachesAtEnd(rules: Rules, draft: Draft, op: Op, number: nat)
    requires op.Attach? && op.position == NOWHERE && op.fileId != "" && op.fileId !in rules.existing
    requires op.title != "" && op.title !in draft.titles
    requires rules.maxChapters.Allows((|draft.work| + 1) as real)
    requires CapacityAllows(rules.capacity, TotalSeconds(draft.work) + op.seconds)
    ensures ErrorOf(rules, draft, op, number).None?
    ensures AfterOne(rules, draft, op, number)
      == Draft(draft.work + [NewChapter(op, number)], draft.titles + {op.title})
  {
    hide TotalSeconds, CapacityAllows;
    assert InsertAt(draft.work, |draft.work|, NewChapter(op, number)) == draft.work + [NewChapter(op, number)];
  }

  lemma Totals()
    ensures TotalSeconds([C]) == 1.0 && TotalSeconds([C, NewChapter(ONE, 0)]) == 2.0
      && Capacity(ONLY_C) == Finite(100.0)
  {
    TotalSingle(C);
    TotalAppend([C], [NewChapter(ONE, 0)]);
    TotalSingle(NewChapter(ONE, 0));
    assert [C] + [NewChapter(ONE, 0)] == [C, NewChapter(ONE, 0)];
  }

  lemma TwiceStarts(retitle: TitleRule)
    ensures var rules := TwiceRules(retitle);
      var a, b := Draft([C], {}), Draft([C, NewChapter(ONE, 0)], {"Aa"});
      && AfterOne(rules, a, ONE, 0) == b && ErrorOf(rules, a, ONE, 0).None?
      && AfterOne(rules, b, TWO, 1) == Draft([C, NewChapter(ONE, 0), NewChapter(TWO, 1)], {"Aa", "Bb"})
      && ErrorOf(rules, b, TWO, 1).None?
  {
    hide TotalSeconds, AfterOne, ErrorOf;
    LettersDiffer();
    Totals();
    var rules := TwiceRules(retitle);
    assert forall id :: id in rules.existing ==> id == "c" || id == "f";
    AttachesAtEnd(rules, Draft([C], {}), ONE, 0);
    assert [C] + [NewChapter(ONE, 0)] == [C, NewChapter(ONE, 0)] && {} + {"Aa"} == {"Aa"};
    AttachesAtEnd(rules, Draft([C, NewChapter(ONE, 0)], {"Aa"}), TWO, 1);
    assert [C, NewChapter(ONE, 0)] + [NewChapter(TWO, 1)] == [C, NewChapter(ONE, 0), NewChapter(TWO, 1)];
    assert {"Aa"} + {"Bb"} == {"Aa", "Bb"};
  }

  lemma MovesToEnd(rules: Rules, number: nat)
    ensures var b := Draft([C, NewChapter(ONE, 0), NewChapter(TWO, 1)], {"Aa", "Bb"});
      && ErrorOf(rules, b, TO_END, number).None?
      && AfterOne(rules, b, TO_END, number) == Draft([NewChapter(ONE, 0), NewChapter(TWO, 1), C], {"Aa", "Bb"})
  {
    LettersDiffer();
    var work := [C, NewChapter(ONE, 0), NewChapter(TWO, 1)];
    assert IsOnly(work, "c", 0);
    var rest := RemoveAt(work, 0);
    assert rest == [NewChapter(ONE, 0), NewChapter(TWO, 1)];
    assert InsertAt(rest, 2, C) == [NewChapter(ONE, 0), NewChapter(TWO, 1), C];
  }

  lemma PlanOfTwice(retitle: TitleRule)
    ensures var plan := SnapshotPlan(retitle, ONLY_C, TWICE);
      plan.draft.work == [NewChapter(ONE, 0), NewChapter(TWO, 1), C] && plan.errors == [None, None, None]
    ensures SnapshotPlan(retitle, ONLY_C, TWICE[..2]).draft.work == [C, NewChapter(ONE, 0), NewChapter(TWO, 1)]
  {
    hide AfterOne, ErrorOf;
    var rules := TwiceRules(retitle);
    var a, b, c := Draft([C], {}), Draft([C, NewChapter(ONE, 0)], {"Aa"}),
      Draft([C, NewChapter(ONE, 0), NewChapter(TWO, 1)], {"Aa", "Bb"});
    TwiceStarts(retitle);
    MovesToEnd(rules, 2);
    var d := AfterOne(rules, c, TO_END, 2);
    assert TWICE[1..] == [TWO, TO_END] && [TWO, TO_END][1..] == [TO_END] && [TO_END][1..] == [];
    assert PlanFrom(rules, d, [], 3) == Plan(d, []);
    assert PlanFrom(rules, c, [TO_END], 2) == Plan(d, [None]);
    assert PlanFrom(rules, b, [TWO, TO_END], 1) == Plan(d, [None, None]);
    assert TWICE[..2] == [ONE, TWO] && [ONE, TWO][1..] == [TWO] && [TWO][1..] == [];
    assert PlanFrom(rules, c, [], 2) == Plan(c, []);
    assert PlanFrom(rules, b, [TWO], 1) == Plan(c, [None]);
  }

  lemma TwiceIsConfirmed()
    ensures ValidStart(Some(ONLY_C)) && ValidRead(Some(ALL_THREE)) && ProcessingIds(ONLY_C.chapters) == {}
    ensures Confirmed(ALL_THREE.chapters, [C], [NewChapter(ONE, 0), NewChapter(TWO, 1), C], {})
    ensures var blank := [OpResult(None, None), OpResult(None, None), OpResult(None, None)];
      WithIds(blank, [NewChapter(ONE, 0), NewChapter(TWO, 1), C], ALL_THREE.chapters, 3) == THREE_RESULTS
  {
    LettersDiffer();
    var blank := [OpResult(None, None), OpResult(None, None), OpResult(None, None)];
    var work, reply := [NewChapter(ONE, 0), NewChapter(TWO, 1), C], ALL_THREE.chapters;
    assert WithIds(blank, work, reply, 0) == blank;
    assert WithIds(blank, work, reply, 1) == [OpResult(None, Some("p0")), OpResult(None, None), OpResult(None, None)];
    assert WithIds(blank, work, reply, 2) == THREE_RESULTS;
  }

  /** The map keeps the last id only. */
  lemma MapOfTwice()
    ensures AssignedIds(TWICE, THREE_RESULTS) == map["s0" := "p1"]
  {
    assert TWICE[..2] == [ONE, TWO] && THREE_RESULTS[..2] == THREE_RESULTS[..1] + [THREE_RESULTS[1]];
    assert [ONE, TWO][..1] == [ONE] && THREE_RESULTS[..2][..1] == [THREE_RESULTS[0]] && [ONE][..0] == [];
    assert AssignedIds([ONE], [THREE_RESULTS[0]]) == map["s0" := "p0"];
    assert AssignedIds([ONE, TWO], THREE_RESULTS[..2]) == map["s0" := "p1"];
  }

  const THREE_STEPS := [Some(Remove("p0")), Some(Remove("p1")), Some(MoveBack("c", Before("p1")))]

  /** The replay refuses the second upload, so the move is recorded right before what the map makes of the first. */
  lemma SecondIsRefused(retitle: TitleRule)
    ensures Replayed(retitle, [C], ONE, THREE_RESULTS[0]) == [C, NewChapter(ONE, 0)]
    ensures Replayed(retitle, [C, NewChapter(ONE, 0)], TWO, THREE_RESULTS[1]) == [C, NewChapter(ONE, 0)]
  {
    hide AfterOne, ErrorOf, PlanFrom, TotalSeconds;
    LettersDiffer();
    var rules := BatchRules(retitle, [C], Unbounded, Unbounded);
    assert forall id :: id in rules.existing ==> id == "c" || id == "f";
    AttachesAtEnd(rules, Draft([C], {}), ONE, 0);
    assert [C] + [NewChapter(ONE, 0)] == [C, NewChapter(ONE, 0)];
    SinglePlan(rules, Draft([C], {}), ONE, 0);
    var one := [C, NewChapter(ONE, 0)];
    var next := BatchRules(retitle, one, Unbounded, Unbounded);
    assert one[1].id == "s0";
    KnownIsRefused(next, Draft(one, {}), TWO, 0);
    SinglePlan(next, Draft(one, {}), TWO, 0);
  }

  lemma MoveIsRecorded()
    ensures Recorded(map["s0" := "p1"], [C, NewChapter(ONE, 0)], TO_END, THREE_RESULTS[2]) == Success(THREE_STEPS[2])
  {
    LettersDiffer();
    var work := [C, NewChapter(ONE, 0)];
    assert IsOnly(work, "c", 0);
    OnlyPosition(work, "c", 0);
    assert AnchorOf(work, 0) == Before("s0");
  }

  lemma AttachesAreRecorded()
    ensures var names := map["s0" := "p1"];
      && Recorded(names, [C], ONE, THREE_RESULTS[0]) == Success(THREE_STEPS[0])
      && Recorded(names, [C, NewChapter(ONE, 0)], TWO, THREE_RESULTS[1]) == Success(THREE_STEPS[1])
  {
    LettersDiffer();
  }

  lemma TwiceIsRecorded(retitle: TitleRule)
    ensures RecordFrom(retitle, AssignedIds(TWICE, THREE_RESULTS), [C], TWICE, THREE_RESULTS) == Success(THREE_STEPS)
  {
    hide Recorded, Replayed, AssignedIds, PlanFrom;
    MapOfTwice();
    SecondIsRefused(retitle);
    MoveIsRecorded();
    AttachesAreRecorded();
    var names, one := map["s0" := "p1"], [C, NewChapter(ONE, 0)];
    RecordSingle(retitle, names, one, TO_END, THREE_RESULTS[2]);
    assert TWICE[1..] == [TWO, TO_END] && [TWO, TO_END][1..] == [TO_END];
    assert THREE_RESULTS[1..] == [THREE_RESULTS[1], THREE_RESULTS[2]];
    assert THREE_RESULTS[1..][1..] == [THREE_RESULTS[2]];
    RecordOne(retitle, names, one, [TWO, TO_END], THREE_RESULTS[1..]);
    RecordOne(retitle, names, [C], TWICE, THREE_RESULTS);
    assert [THREE_STEPS[1]] + [THREE_STEPS[2]] == THREE_STEPS[1..];
    assert [THREE_STEPS[0]] + THREE_STEPS[1..] == THREE_STEPS;
  }

  /** The finished write. */
  function Doubled(retitle: TitleRule): Write {
    Made("tonie", retitle, ONLY_C, TWICE, ALL_THREE.chapters, ALL_THREE, THREE_RESULTS, THREE_STEPS)
  }

  lemma DoubledHappens(retitle: TitleRule)
    ensures Happened(Doubled(retitle))
  {
    hide PlanFrom, WithIds, Confirmed, AssignedIds, RecordFrom, ReadBack, ApplyOutcome, ValidStart, ValidRead,
         ProcessingIds, Writable;
    PlanOfTwice(retitle);
    TwiceIsConfirmed();
    TwiceIsRecorded(retitle);
    var plan := SnapshotPlan(retitle, ONLY_C, TWICE);
    assert ResultsOf(plan.errors) == [OpResult(None, None), OpResult(None, None), OpResult(None, None)];
    assert plan.draft.work[0].mark.Some?;
    ReadIsValid(ONLY_C);
    MarksAreInRange(retitle, ONLY_C, TWICE);
    MadeHappens("tonie", retitle, ONLY_C, TWICE, ALL_THREE.chapters, ALL_THREE, THREE_RESULTS, THREE_STEPS);
  }

  lemma ReadIsValid(s: Snapshot)
    requires ValidStart(Some(s))
    ensures ValidChapters(s.chapters)
  {
  }

  lemma DoubledRepeats(retitle: TitleRule)
    ensures Happened(Doubled(retitle)) && !Unrepeated(Doubled(retitle))
  {
    hide ApplyOutcome, NoRepeats, PlanFrom, UniqueIds;
    DoubledHappens(retitle);
    PlanOfTwice(retitle);
    var w := Doubled(retitle);
    WholePlan(w);
    if Unrepeated(w) {
      UnrepeatedIsUnique(w, 3);
      SameIdTwice();
    }
  }

  lemma SameIdTwice()
    ensures !UniqueIds([NewChapter(ONE, 0), NewChapter(TWO, 1), C])
  {
    var work := [NewChapter(ONE, 0), NewChapter(TWO, 1), C];
    assert work[0].id == work[1].id;
  }

  lemma MoveGoesAstray()
    ensures Backwards(THREE_STEPS[2..]) == [MoveBack("c", Before("p1"))]
    ensures ApplySteps(ALL_THREE.chapters, [MoveBack("c", Before("p1"))]) == Success([P0, C, P1])
  {
    LettersDiffer();
    assert THREE_STEPS[2..] == [THREE_STEPS[2]] && [THREE_STEPS[2]][1..] == [] && Backwards([]) == [];
    var cs := ALL_THREE.chapters;
    assert IsOnly(cs, "c", 2);
    var rest := RemoveAt(cs, 2);
    assert rest == [P0, P1] && IsOnly(rest, "p1", 1);
    assert InsertAt(rest, 1, C) == [P0, C, P1];
    assert [MoveBack("c", Before("p1"))][1..] == [];
  }

  /** A file id attached twice, and a move after it. Every recipe is there, the list still matches, and no permanent id
      is remapped; but undoing the move puts the chapter between the two uploads, not before them. */
  lemma RepeatedIdMisplacesTheMove(retitle: TitleRule)
    ensures var w := Doubled(retitle);
      && Happened(w) && !Unrepeated(w) && OnlyEdits(w, 2) && NoCrossTalk(w, 2) && HasRecipes(w.receipt.steps, 2)
      && Matches(Writable(ALL_THREE.chapters), w.receipt.expected, w.receipt.processing)
      && ApplySteps(ALL_THREE.chapters, Backwards(w.receipt.steps[2..])) == Success([P0, C, P1])
      && Shows(w.results, w.receipt.processing, PlanOf(w, 2).draft.work, [C, P0, P1])
      && !TailShown(w, 2, ALL_THREE.chapters)
  {
    hide ApplyOutcome, NoCrossTalk, PlanFrom, Unrepeated, NewIds, Shows, ApplySteps, Backwards, Writable, Matches,
         SnapshotPlan;
    var w := Doubled(retitle);
    DoubledRepeats(retitle);
    PlanOfTwice(retitle);
    EditsDoNotCross(w, 2);
    MoveGoesAstray();
    MatchesIsEquivalence(Writable(ALL_THREE.chapters), Writable(ALL_THREE.chapters), Writable(ALL_THREE.chapters),
                         w.receipt.processing, w.receipt.processing);
    PlaceOfC(w.receipt.processing);
    NewOnes();
  }

  lemma NewOnes()
    ensures "p0" in NewIds(THREE_RESULTS) && "p1" in NewIds(THREE_RESULTS)
  {
    assert THREE_RESULTS[0].chapterId.Some? && THREE_RESULTS[1].chapterId.Some?;
  }

  lemma PlaceOfC(loose: set<string>)
    ensures var planned := [C, NewChapter(ONE, 0), NewChapter(TWO, 1)];
      !Shows(THREE_RESULTS, loose, planned, [P0, C, P1])
      && ("p0" in loose && "p1" in loose ==> Shows(THREE_RESULTS, loose, planned, [C, P0, P1]))
  {
    LettersDiffer();
    var planned := [C, NewChapter(ONE, 0), NewChapter(TWO, 1)];
    assert !SameAs(PermanentId(THREE_RESULTS, planned[0]), loose, planned[0], P0);
    assert !Shows(THREE_RESULTS, loose, planned, [P0, C, P1]) by {
      assert [P0, C, P1][0] == P0;
    }
  }
}
