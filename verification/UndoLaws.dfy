/** Undo restores: the recorded recipes, run backwards on the list the cloud holds after renaming the
    attached rows, give back the list that was there before the undone ops. */
module UndoLaws {
  import opened Lists
  import opened Planner
  import opened PlannerLaws
  import opened UndoSteps

  // ---- A cloud list that mirrors a planned list ----

  /** `actual` is `planned` under this id; only a `loose` row may differ in file and duration. */
  ghost predicate SameAs(id: string, loose: set<string>, planned: Chapter, actual: Chapter) {
    && actual.id == id
    && actual.title == planned.title
    && actual.kind == planned.kind
    && (actual.id !in loose ==> actual.file == planned.file && actual.seconds == planned.seconds)
  }

  /** `actual` is `planned` under its permanent id, by the staging-to-permanent map. */
  ghost predicate SameRow(names: IdMap, loose: set<string>, planned: Chapter, actual: Chapter) {
    SameAs(Image(names, planned.id), loose, planned, actual)
  }

  ghost predicate Mirrors(names: IdMap, loose: set<string>, planned: seq<Chapter>, actual: seq<Chapter>) {
    |planned| == |actual| && forall i :: 0 <= i < |planned| ==> SameRow(names, loose, planned[i], actual[i])
  }

  /** The id of a planned row on the Tonie: the one its attach got, or its old one. */
  function PermanentId(results: seq<OpResult>, c: Chapter): string {
    if c.mark.Some? && c.mark.value < |results| && results[c.mark.value].chapterId.Some?
    then results[c.mark.value].chapterId.value else c.id
  }

  /** `actual` is the planned list as the cloud keeps it, row by row; two rows filed under one id stay two. */
  ghost predicate Shows(results: seq<OpResult>, loose: set<string>, planned: seq<Chapter>, actual: seq<Chapter>) {
    && |planned| == |actual|
    && forall i :: 0 <= i < |planned| ==> SameAs(PermanentId(results, planned[i]), loose, planned[i], actual[i])
  }

  ghost predicate InjectiveOn(names: IdMap, cs: seq<Chapter>) {
    forall i, j :: 0 <= i < j < |cs| ==> Image(names, cs[i].id) != Image(names, cs[j].id)
  }

  lemma MirrorFind(names: IdMap, loose: set<string>, planned: seq<Chapter>, actual: seq<Chapter>, i: nat)
    requires InjectiveOn(names, planned) && Mirrors(names, loose, planned, actual) && i < |planned|
    ensures Find(actual, Image(names, planned[i].id)) == Some(i)
  {
    var id := Image(names, planned[i].id);
    assert SameRow(names, loose, planned[i], actual[i]);
    forall j | 0 <= j < |actual| && actual[j].id == id ensures j == i {
      assert SameRow(names, loose, planned[j], actual[j]);
    }
    assert IsOnly(actual, id, i);
  }

  lemma MirrorRemove(names: IdMap, loose: set<string>, planned: seq<Chapter>, actual: seq<Chapter>, i: nat)
    requires Mirrors(names, loose, planned, actual) && i < |planned|
    ensures Mirrors(names, loose, RemoveAt(planned, i), RemoveAt(actual, i))
    ensures InjectiveOn(names, planned) ==> InjectiveOn(names, RemoveAt(planned, i))
  {
  }

  lemma MirrorInsert(names: IdMap, loose: set<string>, planned: seq<Chapter>, actual: seq<Chapter>, k: nat,
                     p: Chapter, a: Chapter)
    requires Mirrors(names, loose, planned, actual) && k <= |planned| && SameRow(names, loose, p, a)
    ensures Mirrors(names, loose, InsertAt(planned, k, p), InsertAt(actual, k, a))
  {
  }

  lemma MirrorTitle(names: IdMap, loose: set<string>, planned: seq<Chapter>, actual: seq<Chapter>, i: nat,
                    title: string)
    requires Mirrors(names, loose, planned, actual) && i < |planned|
    ensures Mirrors(names, loose, planned[i := planned[i].(title := title)], actual[i := actual[i].(title := title)])
  {
    assert SameRow(names, loose, planned[i], actual[i]);
  }

  // ---- One op ----

  /** The ops that have an inverse recipe. */
  ghost predicate Invertible(names: IdMap, op: Op, result: OpResult) {
    && result.error.None?
    && (op.Rename? || op.Move?
        || (op.Attach? && result.chapterId.Some?
            && Image(names, result.chapterId.value) == Image(names, op.fileId)))
  }

  lemma NamedIsTarget(work: seq<Chapter>, t: Target)
    requires TargetRow(work, t).Success?
    ensures NamedRow(work, t) == Success(TargetRow(work, t).value)
  {
    if t.chapterId != "" { OnlyPosition(work, t.chapterId, TargetRow(work, t).value); }
  }

  lemma UndoRename(rules: Rules, draft: Draft, op: Op, number: nat, result: OpResult,
                   names: IdMap, loose: set<string>, actual: seq<Chapter>)
    requires op.Rename? && result.error.None? && ApplyOne(rules, draft, op, number).Success?
    requires var after := ApplyOne(rules, draft, op, number).value.work;
      InjectiveOn(names, after) && Mirrors(names, loose, after, actual)
    ensures Restores(names, loose, draft.work, op, result, actual)
  {
    var i := TargetRow(draft.work, op.target).value;
    NamedIsTarget(draft.work, op.target);
    var after := ApplyOne(rules, draft, op, number).value.work;
    MirrorFind(names, loose, after, actual, i);
    MirrorTitle(names, loose, after, actual, i, draft.work[i].title);
    assert after[i := after[i].(title := draft.work[i].title)] == draft.work;
  }

  lemma UndoAttach(rules: Rules, draft: Draft, op: Op, number: nat, result: OpResult,
                   names: IdMap, loose: set<string>, actual: seq<Chapter>)
    requires op.Attach? && Invertible(names, op, result) && ApplyOne(rules, draft, op, number).Success?
    requires var after := ApplyOne(rules, draft, op, number).value.work;
      InjectiveOn(names, after) && Mirrors(names, loose, after, actual)
    ensures Restores(names, loose, draft.work, op, result, actual)
  {
    hide Mirrors, InjectiveOn, Find, InsertionIndex;
    var k := AttachChecks(rules, draft, op).value;
    var after := ApplyOne(rules, draft, op, number).value.work;
    MirrorFind(names, loose, after, actual, k);
    MirrorRemove(names, loose, after, actual, k);
    RemoveAtInsertAt(draft.work, k, NewChapter(op, number));
  }

  /** Putting a row back next to its old neighbour. */
  lemma PutBackMirrors(names: IdMap, loose: set<string>, work: seq<Chapter>, i: nat, left: seq<Chapter>, row: Chapter)
    requires i < |work| && SameRow(names, loose, work[i], row)
    requires InjectiveOn(names, RemoveAt(work, i)) && Mirrors(names, loose, RemoveAt(work, i), left)
    ensures var r := PutBack(left, RemapAnchor(names, AnchorOf(work, i)), row);
      r.Success? && Mirrors(names, loose, work, r.value)
  {
    var rest := RemoveAt(work, i);
    if i + 1 < |work| {
      assert rest[i] == work[i + 1];
      MirrorFind(names, loose, rest, left, i);
    } else if i > 0 {
      assert rest[i - 1] == work[i - 1];
      MirrorFind(names, loose, rest, left, i - 1);
    }
    assert PutBack(left, RemapAnchor(names, AnchorOf(work, i)), row) == Success(InsertAt(left, i, row));
    MirrorInsert(names, loose, rest, left, i, work[i], row);
    InsertAtRemoveAt(work, i);
  }

  lemma UndoMoveAt(names: IdMap, loose: set<string>, work: seq<Chapter>, i: nat, k: nat, actual: seq<Chapter>)
    requires i < |work| && k <= |work| - 1
    requires var after := InsertAt(RemoveAt(work, i), k, work[i]);
      InjectiveOn(names, after) && Mirrors(names, loose, after, actual)
    ensures var r := ApplyStep(actual, Remap(names, MoveBack(work[i].id, AnchorOf(work, i))));
      r.Success? && Mirrors(names, loose, work, r.value)
  {
    var rest := RemoveAt(work, i);
    var after := InsertAt(rest, k, work[i]);
    MirrorFind(names, loose, after, actual, k);
    MirrorRemove(names, loose, after, actual, k);
    RemoveAtInsertAt(rest, k, work[i]);
    assert SameRow(names, loose, after[k], actual[k]);
    PutBackMirrors(names, loose, work, i, RemoveAt(actual, k), actual[k]);
  }

  lemma UndoMove(rules: Rules, draft: Draft, op: Op, number: nat, result: OpResult,
                 names: IdMap, loose: set<string>, actual: seq<Chapter>)
    requires op.Move? && result.error.None? && ApplyOne(rules, draft, op, number).Success?
    requires var after := ApplyOne(rules, draft, op, number).value.work;
      InjectiveOn(names, after) && Mirrors(names, loose, after, actual)
    ensures Restores(names, loose, draft.work, op, result, actual)
  {
    var i := TargetRow(draft.work, op.target).value;
    NamedIsTarget(draft.work, op.target);
    UndoMoveAt(names, loose, draft.work, i,
      InsertionIndex(RemoveAt(draft.work, i), op.position, true).value, actual);
  }

  /** The recipe recorded for `op` on `work` turns `actual` into a mirror of `work`. */
  ghost predicate Restores(names: IdMap, loose: set<string>, work: seq<Chapter>, op: Op, result: OpResult,
                           actual: seq<Chapter>) {
    && Recorded(names, work, op, result).Success?
    && Recorded(names, work, op, result).value.Some?
    && var r := ApplyStep(actual, Recorded(names, work, op, result).value.value);
       r.Success? && Mirrors(names, loose, work, r.value)
  }

  lemma UndoOne(rules: Rules, draft: Draft, op: Op, number: nat, result: OpResult,
                names: IdMap, loose: set<string>, actual: seq<Chapter>)
    requires Invertible(names, op, result) && ApplyOne(rules, draft, op, number).Success?
    requires var after := ApplyOne(rules, draft, op, number).value.work;
      InjectiveOn(names, after) && Mirrors(names, loose, after, actual)
    ensures Restores(names, loose, draft.work, op, result, actual)
  {
    match op {
      case Rename(_, _) => UndoRename(rules, draft, op, number, result, names, loose, actual);
      case Move(_, _) => UndoMove(rules, draft, op, number, result, names, loose, actual);
      case Attach(_, _, _, _) => UndoAttach(rules, draft, op, number, result, names, loose, actual);
    }
  }

  // ---- Replaying one at a time agrees with the batch ----

  lemma {:induction false} AlikePositions(a: seq<Chapter>, b: seq<Chapter>, id: string)
    requires Alike(a, b)
    ensures Positions(a, id) == Positions(b, id)
    decreases |a|
  {
    if a != [] {
      var n := |a| - 1;
      AlikePositions(a[..n], b[..n], id);
      assert a[n].(mark := None).id == b[n].(mark := None).id;
    }
  }

  lemma AlikeIds(a: seq<Chapter>, b: seq<Chapter>)
    requires Alike(a, b)
    ensures forall k :: 0 <= k < |a| ==> a[k].id == b[k].id && a[k].title == b[k].title && a[k].file == b[k].file
  {
    forall k | 0 <= k < |a| ensures a[k].id == b[k].id && a[k].title == b[k].title && a[k].file == b[k].file {
      var x, y := a[k].(mark := None), b[k].(mark := None);
      assert x == y && x.id == a[k].id && y.id == b[k].id && x.title == a[k].title && y.title == b[k].title;
      assert x.file == a[k].file && y.file == b[k].file;
    }
  }

  lemma AlikeNamed(a: seq<Chapter>, b: seq<Chapter>, t: Target)
    requires Alike(a, b)
    ensures NamedRow(a, t) == NamedRow(b, t)
  {
    AlikePositions(a, b, t.chapterId);
  }

  lemma AlikeRecorded(names: IdMap, a: seq<Chapter>, b: seq<Chapter>, op: Op, result: OpResult)
    requires Alike(a, b)
    ensures Recorded(names, a, op, result) == Recorded(names, b, op, result)
  {
    if op.Rename? || op.Move? {
      AlikeNamed(a, b, op.target);
      AlikeIds(a, b);
    }
  }

  /** Without limits, an op that fits the batch does the same to the same list. */
  lemma FreeOne(rules: Rules, free: Rules, draft: Draft, op: Op, number: nat)
    requires free.retitle == rules.retitle && free.capacity == Unbounded && free.maxChapters == Unbounded
    requires ApplyOne(rules, draft, op, number).Success?
    requires op.Attach? ==> op.fileId !in free.existing
    ensures ApplyOne(free, Draft(draft.work, {}), op, number).Success?
    ensures ApplyOne(free, Draft(draft.work, {}), op, number).value.work
      == ApplyOne(rules, draft, op, number).value.work
  {
  }

  lemma AlikeExisting(a: seq<Chapter>, b: seq<Chapter>)
    requires Alike(a, b)
    ensures ExistingIds(b) <= ExistingIds(a)
  {
    AlikeIds(a, b);
  }

  /** The replay step of `inverse_steps` follows the batch fold, up to marks. */
  lemma ReplayOne(rules: Rules, draft: Draft, op: Op, number: nat, result: OpResult, work: seq<Chapter>)
    requires Alike(draft.work, work)
    requires ErrorOf(rules, draft, op, number) == result.error
    requires KnownFiles(rules, draft.work) && !Repeats(rules, draft, op, number)
    ensures Alike(AfterOne(rules, draft, op, number).work, Replayed(rules.retitle, work, op, result))
  {
    hide ApplyOne, ExistingIds, Alike, PlanFrom, KnownFiles, Repeats;
    if result.error.None? {
      var free := BatchRules(rules.retitle, work, Unbounded, Unbounded);
      AlikeExisting(draft.work, work);
      if op.Attach? { UnrepeatedIsFresh(rules, draft, op, number); }
      FreeOne(rules, free, draft, op, number);
      AlikeOne(free, Draft(draft.work, {}), Draft(work, {}), op, number, 0);
      SinglePlan(free, Draft(work, {}), op, 0);
    }
  }

  lemma {:induction false} SinglePlan(rules: Rules, draft: Draft, op: Op, number: nat)
    ensures PlanFrom(rules, draft, [op], number).draft == AfterOne(rules, draft, op, number)
  {
    assert [op][1..] == [];
  }

  // ---- A suffix of the batch ----

  /** The results a batch reports, op by op. */
  ghost predicate Reports(plan: Plan, results: seq<OpResult>) {
    |plan.errors| == |results| && forall k :: 0 <= k < |results| ==> results[k].error == plan.errors[k]
  }

  /** `work` after the first `|ops|` ops of the replay. */
  ghost function ReplayAll(retitle: TitleRule, work: seq<Chapter>, ops: seq<Op>, results: seq<OpResult>): seq<Chapter>
    requires |ops| == |results|
    decreases ops
  {
    if ops == [] then work
    else ReplayAll(retitle, Replayed(retitle, work, ops[0], results[0]), ops[1..], results[1..])
  }

  lemma FirstReport(rules: Rules, draft: Draft, ops: seq<Op>, number: nat, results: seq<OpResult>)
    requires ops != [] && Reports(PlanFrom(rules, draft, ops, number), results)
    ensures |results| == |ops| && ErrorOf(rules, draft, ops[0], number) == results[0].error
    ensures Reports(PlanFrom(rules, AfterOne(rules, draft, ops[0], number), ops[1..], number + 1), results[1..])
  {
    hide ApplyOne, AfterOne, ErrorOf;
    var plan := PlanFrom(rules, draft, ops, number);
    assert results[0].error == plan.errors[0];
    assert plan.errors[1..] == PlanFrom(rules, AfterOne(rules, draft, ops[0], number), ops[1..], number + 1).errors;
  }

  /** Replaying the successful ops one at a time passes through the lists of the batch fold. */
  lemma {:induction false} ReplayRefinesBatch(rules: Rules, draft: Draft, ops: seq<Op>, number: nat,
                                              results: seq<OpResult>, work: seq<Chapter>)
    requires NoRepeats(rules, draft, ops, number) && KnownFiles(rules, draft.work)
    requires Alike(draft.work, work) && Reports(PlanFrom(rules, draft, ops, number), results)
    ensures Alike(PlanFrom(rules, draft, ops, number).draft.work, ReplayAll(rules.retitle, work, ops, results))
    decreases ops
  {
    hide NoRepeats, Repeats, KnownFiles, AfterOne, Replayed, Alike;
    if ops != [] {
      var next := AfterOne(rules, draft, ops[0], number);
      FirstReport(rules, draft, ops, number, results);
      NoRepeatsHead(rules, draft, ops, number);
      KnownAfterOne(rules, draft, ops[0], number);
      ReplayOne(rules, draft, ops[0], number, results[0], work);
      ReplayRefinesBatch(rules, next, ops[1..], number + 1, results[1..],
        Replayed(rules.retitle, work, ops[0], results[0]));
    }
  }

  /** The replay keeps up with the batch, up to marks, after every op exactly when no successful attach repeats an id of
      the running list: that is what the replay, one op at a time, refuses and the batch does not. */
  lemma {:induction false} ReplayRefinesIff(rules: Rules, draft: Draft, ops: seq<Op>, number: nat,
                                            results: seq<OpResult>, work: seq<Chapter>)
    requires KnownFiles(rules, draft.work) && Alike(draft.work, work)
    requires Reports(PlanFrom(rules, draft, ops, number), results)
    ensures (forall n :: 0 <= n <= |ops| ==> Follows(rules, draft, ops, number, results, work, n))
            <==> NoRepeats(rules, draft, ops, number)
  {
    hide PlanFrom, ReplayAll, Alike, Repeats, Reports, KnownFiles;
    if NoRepeats(rules, draft, ops, number) {
      forall n | 0 <= n <= |ops| ensures Follows(rules, draft, ops, number, results, work, n) {
        assert ops == ops[..n] + ops[n..];
        NoRepeatsSplits(rules, draft, ops[..n], ops[n..], number);
        PrefixReports(rules, draft, ops, number, results, n);
        ReplayRefinesBatch(rules, draft, ops[..n], number, results[..n], work);
      }
    } else {
      var n :| 0 <= n < |ops| && Repeats(rules, PlanFrom(rules, draft, ops[..n], number).draft, ops[n], number + n);
      if Follows(rules, draft, ops, number, results, work, n)
        && Follows(rules, draft, ops, number, results, work, n + 1) {
        RepeatFallsBehind(rules, draft, ops, number, results, work, n);
      }
    }
  }

  /** The replay of the first `n` ops ends where the batch does. */
  ghost predicate Follows(rules: Rules, draft: Draft, ops: seq<Op>, number: nat, results: seq<OpResult>,
                          work: seq<Chapter>, n: nat)
  {
    && n <= |ops| == |results|
    && Alike(PlanFrom(rules, draft, ops[..n], number).draft.work,
      ReplayAll(rules.retitle, work, ops[..n], results[..n]))
  }

  lemma {:induction false} PrefixReports(rules: Rules, draft: Draft, ops: seq<Op>, number: nat, results: seq<OpResult>,
                                         n: nat)
    requires n <= |ops| && Reports(PlanFrom(rules, draft, ops, number), results)
    ensures |results| == |ops| && Reports(PlanFrom(rules, draft, ops[..n], number), results[..n])
    ensures n < |ops| ==>
      results[n].error == ErrorOf(rules, PlanFrom(rules, draft, ops[..n], number).draft, ops[n], number + n)
  {
    hide AfterOne, ErrorOf;
    assert ops == ops[..n] + ops[n..];
    PlanSplits(rules, draft, ops[..n], ops[n..], number);
    var head := PlanFrom(rules, draft, ops[..n], number);
    var tail := PlanFrom(rules, head.draft, ops[n..], number + n);
    assert PlanFrom(rules, draft, ops, number).errors == head.errors + tail.errors;
    if n < |ops| { assert tail.errors[0] == ErrorOf(rules, head.draft, ops[n..][0], number + n); }
  }

  lemma {:induction false} ReplaySplits(retitle: TitleRule, work: seq<Chapter>, ops: seq<Op>, results: seq<OpResult>,
                                        op: Op, result: OpResult)
    requires |ops| == |results|
    ensures ReplayAll(retitle, work, ops + [op], results + [result])
            == Replayed(retitle, ReplayAll(retitle, work, ops, results), op, result)
    decreases ops
  {
    hide Replayed;
    if ops == [] {
      assert ops + [op] == [op] && results + [result] == [result];
      assert [op][1..] == [] && [result][1..] == [];
      assert ReplayAll(retitle, Replayed(retitle, work, op, result), [], []) == Replayed(retitle, work, op, result);
    } else {
      assert (ops + [op])[1..] == ops[1..] + [op] && (results + [result])[1..] == results[1..] + [result];
      ReplaySplits(retitle, Replayed(retitle, work, ops[0], results[0]), ops[1..], results[1..], op, result);
    }
  }

  /** A repeat adds a row to the batch that the replay refuses. */
  lemma {:induction false} RepeatFallsBehind(rules: Rules, draft: Draft, ops: seq<Op>, number: nat,
                                             results: seq<OpResult>, work: seq<Chapter>, n: nat)
    requires n < |ops| && Reports(PlanFrom(rules, draft, ops, number), results)
    requires Repeats(rules, PlanFrom(rules, draft, ops[..n], number).draft, ops[n], number + n)
    requires Follows(rules, draft, ops, number, results, work, n)
    ensures !Follows(rules, draft, ops, number, results, work, n + 1)
  {
    hide PlanFrom, ReplayAll, Alike, Repeats, Reports, Replayed, AfterOne;
    PrefixReports(rules, draft, ops, number, results, n);
    PlanNext(rules, draft, ops, number, n);
    var planned := PlanFrom(rules, draft, ops[..n], number).draft;
    var replayed := ReplayAll(rules.retitle, work, ops[..n], results[..n]);
    assert ops[..n + 1] == ops[..n] + [ops[n]] && results[..n + 1] == results[..n] + [results[n]];
    ReplaySplits(rules.retitle, work, ops[..n], results[..n], ops[n], results[n]);
    RepeatGrows(rules, planned, ops[n], number + n);
    RepeatIsRefused(rules, planned, ops[n], number + n, results[n], replayed);
    AlikeSize(planned.work, replayed);
    AlikeSize(AfterOne(rules, planned, ops[n], number + n).work, replayed);
  }

  lemma AlikeSize(a: seq<Chapter>, b: seq<Chapter>)
    ensures Alike(a, b) ==> |a| == |b|
  {
  }

  lemma RepeatGrows(rules: Rules, draft: Draft, op: Op, number: nat)
    requires Repeats(rules, draft, op, number)
    ensures |AfterOne(rules, draft, op, number).work| == |draft.work| + 1
  {
    hide InsertionIndex;
  }

  lemma RepeatIsRefused(rules: Rules, draft: Draft, op: Op, number: nat, result: OpResult, work: seq<Chapter>)
    requires Repeats(rules, draft, op, number) && Alike(draft.work, work)
    ensures Replayed(rules.retitle, work, op, result) == work
  {
    hide Alike, ApplyOne, PlanFrom, ExistingIds, AfterOne;
    var free := BatchRules(rules.retitle, work, Unbounded, Unbounded);
    AlikeHasId(draft.work, work, op.fileId);
    KnownIsRefused(free, Draft(work, {}), op, 0);
    SinglePlan(free, Draft(work, {}), op, 0);
  }

  lemma AlikeHasId(a: seq<Chapter>, b: seq<Chapter>, id: string)
    requires Alike(a, b) && id in Ids(a)
    ensures id in ExistingIds(b)
  {
    hide Alike;
    AlikeIds(a, b);
    AlikeSize(a, b);
    var i :| 0 <= i < |a| && a[i].id == id;
    assert b[i].id == id;
  }

  lemma KnownIsRefused(rules: Rules, draft: Draft, op: Op, number: nat)
    requires op.Attach? && op.fileId in rules.existing
    ensures AfterOne(rules, draft, op, number) == draft
  {
  }

  /** Recording a batch is recording its head, then its tail from where the replay of the head ends. */
  lemma {:induction false} RecordSplits(retitle: TitleRule, names: IdMap, work: seq<Chapter>, a: seq<Op>,
                                        ra: seq<OpResult>, b: seq<Op>, rb: seq<OpResult>)
    requires |a| == |ra| && |b| == |rb|
    requires RecordFrom(retitle, names, work, a, ra).Success?
    ensures RecordFrom(retitle, names, work, a + b, ra + rb)
            == Prepend(RecordFrom(retitle, names, work, a, ra).value,
                       RecordFrom(retitle, names, ReplayAll(retitle, work, a, ra), b, rb))
    decreases a
  {
    hide Recorded, Replayed;
    var tail := RecordFrom(retitle, names, ReplayAll(retitle, work, a, ra), b, rb);
    if a == [] {
      assert a + b == b && ra + rb == rb;
      PrependNothing(tail);
    } else {
      assert (a + b)[0] == a[0] && (a + b)[1..] == a[1..] + b;
      assert (ra + rb)[0] == ra[0] && (ra + rb)[1..] == ra[1..] + rb;
      var next := Replayed(retitle, work, a[0], ra[0]);
      RecordOne(retitle, names, work, a, ra);
      RecordOne(retitle, names, work, a + b, ra + rb);
      hide RecordFrom, ReplayAll;
      RecordSplits(retitle, names, next, a[1..], ra[1..], b, rb);
      var rest := RecordFrom(retitle, names, next, a[1..], ra[1..]).value;
      var step := Recorded(names, work, a[0], ra[0]).value;
      if tail.Success? { assert [step] + (rest + tail.value) == [step] + rest + tail.value; }
    }
  }

  lemma {:induction false} RecordOne(retitle: TitleRule, names: IdMap, work: seq<Chapter>, ops: seq<Op>,
                                     results: seq<OpResult>)
    requires |ops| == |results| && ops != []
    ensures RecordFrom(retitle, names, work, ops, results) ==
      match Recorded(names, work, ops[0], results[0])
      case Failure(e) => Failure(e)
      case Success(step) =>
        Prepend([step], RecordFrom(retitle, names, Replayed(retitle, work, ops[0], results[0]), ops[1..], results[1..]))
  {
  }

  lemma {:induction false} RecordSingle(retitle: TitleRule, names: IdMap, work: seq<Chapter>, op: Op, result: OpResult)
    requires Recorded(names, work, op, result).Success?
    ensures RecordFrom(retitle, names, work, [op], [result]) == Success([Recorded(names, work, op, result).value])
  {
    assert [op][1..] == [] && [result][1..] == [];
    var step := Recorded(names, work, op, result).value;
    assert [step] + [] == [step];
    assert RecordFrom(retitle, names, Replayed(retitle, work, op, result), [], []) == Success([]);
  }

  /** Recording never fails on the results of the batch itself. */
  lemma {:induction false} RecordingSucceeds(rules: Rules, names: IdMap, draft: Draft, ops: seq<Op>, number: nat,
                                             results: seq<OpResult>, work: seq<Chapter>)
    requires NoRepeats(rules, draft, ops, number) && KnownFiles(rules, draft.work)
    requires Alike(draft.work, work) && Reports(PlanFrom(rules, draft, ops, number), results)
    ensures RecordFrom(rules.retitle, names, work, ops, results).Success?
    decreases ops
  {
    hide NoRepeats, Repeats, KnownFiles, Alike;
    if ops != [] {
      var next := AfterOne(rules, draft, ops[0], number);
      FirstReport(rules, draft, ops, number, results);
      NoRepeatsHead(rules, draft, ops, number);
      KnownAfterOne(rules, draft, ops[0], number);
      AlikeRecorded(names, draft.work, work, ops[0], results[0]);
      if results[0].error.None? && (ops[0].Rename? || ops[0].Move?) {
        NamedIsTarget(draft.work, ops[0].target);
      }
      ReplayOne(rules, draft, ops[0], number, results[0], work);
      RecordingSucceeds(rules, names, next, ops[1..], number + 1, results[1..],
        Replayed(rules.retitle, work, ops[0], results[0]));
    }
  }

  ghost predicate AllInvertible(names: IdMap, ops: seq<Op>, results: seq<OpResult>) {
    |ops| == |results| && forall k :: 0 <= k < |ops| ==> Invertible(names, ops[k], results[k])
  }

  /** The recipes of an undone submission, last first. */
  function Backwards(steps: seq<Option<Step>>): (r: seq<Step>)
    decreases steps
  {
    if steps == [] then []
    else Backwards(steps[1..]) + (if steps[0].Some? then [steps[0].value] else [])
  }

  lemma InjectiveBefore(rules: Rules, names: IdMap, draft: Draft, op: Op, number: nat)
    requires ApplyOne(rules, draft, op, number).Success? && (op.Rename? || op.Move? || op.Attach?)
    requires InjectiveOn(names, ApplyOne(rules, draft, op, number).value.work)
    ensures InjectiveOn(names, draft.work)
  {
    hide InjectiveOn, InsertionIndex, InsertAt, RemoveAt, Find;
    match op {
      case Rename(t, title) =>
        var i := TargetRow(draft.work, t).value;
        InjectiveRename(names, draft.work, i, rules.retitle(draft.work[i].title, title).value);
      case Move(t, p) =>
        var i := TargetRow(draft.work, t).value;
        InjectiveMove(names, draft.work, i, InsertionIndex(RemoveAt(draft.work, i), p, true).value);
      case Attach(_, _, _, _) =>
        InjectiveInsert(names, draft.work, AttachChecks(rules, draft, op).value, NewChapter(op, number));
    }
  }

  lemma InjectiveRename(names: IdMap, work: seq<Chapter>, i: nat, title: string)
    requires i < |work| && InjectiveOn(names, work[i := work[i].(title := title)])
    ensures InjectiveOn(names, work)
  {
    var after := work[i := work[i].(title := title)];
    assert forall x :: 0 <= x < |work| ==> after[x].id == work[x].id;
  }

  lemma InjectiveInsert(names: IdMap, work: seq<Chapter>, k: nat, c: Chapter)
    requires k <= |work| && InjectiveOn(names, InsertAt(work, k, c))
    ensures InjectiveOn(names, work)
  {
    var after := InsertAt(work, k, c);
    forall x, y | 0 <= x < y < |work| ensures Image(names, work[x].id) != Image(names, work[y].id) {
      assert after[if x < k then x else x + 1] == work[x] && after[if y < k then y else y + 1] == work[y];
    }
  }

  /** Where row `x` lands when row `i` is taken out and put back at `k`. */
  function MovedTo(i: nat, k: nat, x: nat): (y: nat)
    ensures x == i ==> y == k
  {
    if x == i then k
    else
      var r := if x < i then x else x - 1;
      if r < k then r else r + 1
  }

  lemma InjectiveMove(names: IdMap, work: seq<Chapter>, i: nat, k: nat)
    requires i < |work| && k < |work|
    requires InjectiveOn(names, InsertAt(RemoveAt(work, i), k, work[i]))
    ensures InjectiveOn(names, work)
  {
    var after := InsertAt(RemoveAt(work, i), k, work[i]);
    forall x | 0 <= x < |work| ensures MovedTo(i, k, x) < |after| && after[MovedTo(i, k, x)] == work[x] {
    }
    hide InsertAt, RemoveAt;
    forall x, y | 0 <= x < y < |work| ensures Image(names, work[x].id) != Image(names, work[y].id) {
      assert MovedTo(i, k, x) != MovedTo(i, k, y);
      assert after[MovedTo(i, k, x)] == work[x] && after[MovedTo(i, k, y)] == work[y];
    }
  }

  lemma {:induction false} InjectiveBackwards(rules: Rules, names: IdMap, draft: Draft, ops: seq<Op>, number: nat,
                                              results: seq<OpResult>)
    requires AllInvertible(names, ops, results) && Reports(PlanFrom(rules, draft, ops, number), results)
    requires InjectiveOn(names, PlanFrom(rules, draft, ops, number).draft.work)
    ensures InjectiveOn(names, draft.work)
    decreases ops
  {
    if ops != [] {
      var next := AfterOne(rules, draft, ops[0], number);
      assert results[0].error == PlanFrom(rules, draft, ops, number).errors[0];
      assert PlanFrom(rules, draft, ops, number).errors[1..] == PlanFrom(rules, next, ops[1..], number + 1).errors;
      InjectiveBackwards(rules, names, next, ops[1..], number + 1, results[1..]);
      InjectiveBefore(rules, names, draft, ops[0], number);
    }
  }

  /** Undoing a run of invertible ops, last first, restores the list from before them. */
  lemma {:induction false} UndoSuffix(rules: Rules, draft: Draft, ops: seq<Op>, number: nat, results: seq<OpResult>,
                                      work: seq<Chapter>, names: IdMap, loose: set<string>, actual: seq<Chapter>)
    requires AllInvertible(names, ops, results) && Reports(PlanFrom(rules, draft, ops, number), results)
    requires NoRepeats(rules, draft, ops, number) && KnownFiles(rules, draft.work)
    requires Alike(draft.work, work)
    requires InjectiveOn(names, PlanFrom(rules, draft, ops, number).draft.work)
    requires Mirrors(names, loose, PlanFrom(rules, draft, ops, number).draft.work, actual)
    ensures var steps := RecordFrom(rules.retitle, names, work, ops, results);
      && steps.Success? && (forall k :: 0 <= k < |steps.value| ==> steps.value[k].Some?)
      && var r := ApplySteps(actual, Backwards(steps.value));
         r.Success? && Mirrors(names, loose, draft.work, r.value)
    decreases ops
  {
    hide ApplyOne, Replayed, Recorded, ApplyStep, ApplySteps, Mirrors, InjectiveOn, Alike, NoRepeats, Repeats,
         KnownFiles, AllInvertible, Invertible, PlanFrom, Reports, Restores, Backwards;
    if ops == [] {
      NothingPlanned(rules, draft, number);
      NothingUndone(actual);
    } else {
      FirstOps(rules, names, draft, ops, number, results);
      var next := AfterOne(rules, draft, ops[0], number);
      NoRepeatsHead(rules, draft, ops, number);
      KnownAfterOne(rules, draft, ops[0], number);
      ReplayOne(rules, draft, ops[0], number, results[0], work);
      var replayed := Replayed(rules.retitle, work, ops[0], results[0]);
      UndoSuffix(rules, next, ops[1..], number + 1, results[1..], replayed, names, loose, actual);
      var rest := RecordFrom(rules.retitle, names, replayed, ops[1..], results[1..]).value;
      var mid := ApplySteps(actual, Backwards(rest)).value;
      InjectiveBackwards(rules, names, next, ops[1..], number + 1, results[1..]);
      UndoOne(rules, draft, ops[0], number, results[0], names, loose, mid);
      AlikeRecorded(names, draft.work, work, ops[0], results[0]);
      UndoneLast(rules.retitle, names, loose, work, draft.work, ops, results, actual, rest);
    }
  }

  lemma {:induction false} NothingUndone(actual: seq<Chapter>)
    ensures Backwards([]) == [] && ApplySteps(actual, []) == Success(actual)
  {
  }

  /** What the conditions on a batch say of its first op and of the others. */
  lemma FirstOps(rules: Rules, names: IdMap, draft: Draft, ops: seq<Op>, number: nat, results: seq<OpResult>)
    requires ops != [] && AllInvertible(names, ops, results) && Reports(PlanFrom(rules, draft, ops, number), results)
    ensures |results| == |ops|
    ensures Invertible(names, ops[0], results[0]) && AllInvertible(names, ops[1..], results[1..])
    ensures ErrorOf(rules, draft, ops[0], number) == results[0].error == None
      && ApplyOne(rules, draft, ops[0], number).Success?
    ensures var next := AfterOne(rules, draft, ops[0], number);
      && Reports(PlanFrom(rules, next, ops[1..], number + 1), results[1..])
      && PlanFrom(rules, draft, ops, number).draft == PlanFrom(rules, next, ops[1..], number + 1).draft
  {
    hide ApplyOne;
    FirstReport(rules, draft, ops, number, results);
    assert forall k :: 0 <= k < |ops[1..]| ==> ops[1..][k] == ops[k + 1] && results[1..][k] == results[k + 1];
  }

  /** The recipe of the first op runs last. */
  lemma {:induction false} UndoneLast(retitle: TitleRule, names: IdMap, loose: set<string>, work: seq<Chapter>,
                                      before: seq<Chapter>, ops: seq<Op>, results: seq<OpResult>, actual: seq<Chapter>,
                                      rest: seq<Option<Step>>)
    requires ops != [] && |ops| == |results|
    requires RecordFrom(retitle, names, Replayed(retitle, work, ops[0], results[0]), ops[1..], results[1..])
      == Success(rest)
    requires (forall k :: 0 <= k < |rest| ==> rest[k].Some?) && ApplySteps(actual, Backwards(rest)).Success?
    requires Recorded(names, before, ops[0], results[0]) == Recorded(names, work, ops[0], results[0])
    requires Restores(names, loose, before, ops[0], results[0], ApplySteps(actual, Backwards(rest)).value)
    ensures var steps := RecordFrom(retitle, names, work, ops, results);
      && steps.Success? && (forall k :: 0 <= k < |steps.value| ==> steps.value[k].Some?)
      && var r := ApplySteps(actual, Backwards(steps.value));
         r.Success? && Mirrors(names, loose, before, r.value)
  {
    hide Recorded, Replayed, ApplyStep, ApplySteps, Mirrors;
    var step := Recorded(names, work, ops[0], results[0]).value;
    ApplyStepsAppend(actual, Backwards(rest), step.value);
    assert ([step] + rest)[1..] == rest;
    assert Backwards([step] + rest) == Backwards(rest) + [step.value];
  }
}
