/** What a Tonie can hold, in the fields of the snapshot a write starts from: no plan overfills it, and an upload is
    turned down for exactly the reason that applies to it. */
module CloudLimits {
  import opened Lists
  import opened Planner
  import opened PlannerLaws
  import opened UndoSteps
  import opened CloudContent
  import opened CloudWrite
  import opened CloudLaws

  /** The Tonie has room for lists of this length: at most its own maximum, and at most what it says is free beyond the
      chapters it shows, with one second of tolerance. */
  ghost predicate RoomFor(s: Snapshot, total: real) {
    total <= s.maxSeconds + 1.0 && total <= s.secondsRemaining + TotalSeconds(s.chapters) + 1.0
  }

  ghost predicate NoNegativeUploads(ops: seq<Op>) {
    forall j :: 0 <= j < |ops| && ops[j].Attach? ==> ops[j].seconds >= 0.0
  }

  /** A list that fits the Tonie, or takes no more of it than the chapters that were there. */
  ghost predicate Fits(s: Snapshot, cs: seq<Chapter>) {
    && (TotalSeconds(cs) <= TotalSeconds(s.chapters) || RoomFor(s, TotalSeconds(cs)))
    && (|cs| <= |s.chapters| || |cs| as real <= s.maxChapters)
  }

  /** No batch overfills a Tonie, whichever of the two bounds is the smaller one. */
  lemma PlanFits(retitle: TitleRule, s: Snapshot, ops: seq<Op>)
    requires ValidChapters(s.chapters) && NoNegativeUploads(ops)
    ensures Fits(s, SnapshotPlan(retitle, s, ops).draft.work)
  {
    hide PlanFrom;
    LimitsAfterPlan(BatchRules(retitle, s.chapters, Capacity(s), Finite(s.maxChapters)), s.chapters,
                    Draft(s.chapters, {}), ops, 0);
  }

  // ---- Which uploads are turned down ----

  /** The allocated file id is missing, or is the id or the file of a chapter of the snapshot. */
  ghost predicate Collides(s: Snapshot, op: Op)
    requires op.Attach?
  {
    || op.fileId == ""
    || exists i :: 0 <= i < |s.chapters| && (s.chapters[i].id == op.fileId || s.chapters[i].file == op.fileId)
  }

  /** Op `j` is an upload that the batch took. */
  ghost predicate Took(ops: seq<Op>, errors: seq<Option<OpError>>, j: int) {
    0 <= j < |ops| && j < |errors| && ops[j].Attach? && errors[j].None?
  }

  /** The title is missing, or one of the uploads that the batch took before has it. */
  ghost predicate TitleTaken(ops: seq<Op>, errors: seq<Option<OpError>>, k: nat)
    requires k < |ops| && ops[k].Attach?
  {
    ops[k].title == "" || exists j :: 0 <= j < k && Took(ops, errors, j) && ops[j].title == ops[k].title
  }

  /** What op `k` is turned down for, on the list that the ops before it leave. */
  ghost predicate TurnedDown(s: Snapshot, ops: seq<Op>, errors: seq<Option<OpError>>, k: nat, list: seq<Chapter>)
    requires k < |ops| && ops[k].Attach? && |errors| == |ops|
  {
    var total := TotalSeconds(list) + ops[k].seconds;
    if Collides(s, ops[k]) then errors[k] == Some(AllocationCollides)
    else if TitleTaken(ops, errors, k) then errors[k] == Some(TitleNotUnique)
    else if (|list| + 1) as real > s.maxChapters then errors[k] == Some(ChapterLimit)
    else if !RoomFor(s, total) then errors[k] == Some(CapacityExceeded)
    else errors[k] == if PlaceGone(list, ops[k].position) then Some(DropPositionGone) else None
  }

  /** The position names a chapter that is not on the list, exactly once, and no index to fall back on. */
  ghost predicate PlaceGone(list: seq<Chapter>, p: Position) {
    && p.edge.None? && p.index.None?
    && (if p.before != "" then !exists i :: IsOnly(list, p.before, i)
        else p.after != "" && !exists i :: IsOnly(list, p.after, i))
  }

  lemma PlaceGoneIff(list: seq<Chapter>, p: Position)
    ensures var k := InsertionIndex(list, p, false);
      if PlaceGone(list, p) then k == Failure(DropPositionGone) else k.Success?
  {
    if p.edge.Some? {
      match p.edge.value { case Start => assert p.edge == Some(Start); case End => assert p.edge == Some(End); }
    }
  }

  ghost predicate TakenIn(ops: seq<Op>, errors: seq<Option<OpError>>, title: string) {
    exists j :: Took(ops, errors, j) && ops[j].title == title
  }

  /** The attached titles are those of the uploads the batch took. */
  lemma {:induction false} TitlesAttached(rules: Rules, draft: Draft, ops: seq<Op>, number: nat, title: string)
    ensures title in PlanFrom(rules, draft, ops, number).draft.titles
            <==> title in draft.titles || TakenIn(ops, PlanFrom(rules, draft, ops, number).errors, title)
    decreases ops
  {
    hide ApplyOne;
    if ops != [] {
      var next := AfterOne(rules, draft, ops[0], number);
      TitlesAttached(rules, next, ops[1..], number + 1, title);
      TitlesAfterOne(rules, draft, ops[0], number, title);
      var errors := PlanFrom(rules, draft, ops, number).errors;
      var rest := PlanFrom(rules, next, ops[1..], number + 1).errors;
      assert errors[1..] == rest && errors[0] == ErrorOf(rules, draft, ops[0], number);
      hide PlanFrom;
      if j :| Took(ops[1..], rest, j) && ops[1..][j].title == title { assert Took(ops, errors, j + 1); }
      if j :| Took(ops, errors, j) && ops[j].title == title {
        if j == 0 {
          assert Took([ops[0]], [errors[0]], 0);
        } else {
          assert Took(ops[1..], rest, j - 1) && ops[1..][j - 1].title == title;
        }
      }
      if TakenIn([ops[0]], [errors[0]], title) { assert Took(ops, errors, 0); }
    }
  }

  lemma TitlesAfterOne(rules: Rules, draft: Draft, op: Op, number: nat, title: string)
    ensures title in AfterOne(rules, draft, op, number).titles
            <==> title in draft.titles || TakenIn([op], [ErrorOf(rules, draft, op, number)], title)
  {
    hide InsertionIndex, TargetRow, TotalSeconds;
    if op.Attach? && ErrorOf(rules, draft, op, number).None? && op.title == title {
      assert Took([op], [ErrorOf(rules, draft, op, number)], 0);
    }
  }

  lemma AttachErrors(rules: Rules, draft: Draft, op: Op, number: nat)
    requires op.Attach?
    ensures ErrorOf(rules, draft, op, number)
            == (var k := AttachChecks(rules, draft, op); if k.Success? then None else Some(k.error))
  {
    hide TotalSeconds, InsertionIndex;
  }

  lemma ExistingIs(s: Snapshot, id: string)
    ensures id in ExistingIds(s.chapters)
            <==> exists i :: 0 <= i < |s.chapters| && (s.chapters[i].id == id || s.chapters[i].file == id)
  {
  }

  lemma RoomIsCapacity(s: Snapshot, total: real)
    ensures RoomFor(s, total) <==> CapacityAllows(Capacity(s), total)
  {
  }

  /** In every batch on every snapshot, an upload is turned down for exactly the first reason that applies: its file id,
      its title, the number of chapters, the room that is left, or a place that is gone; otherwise it is taken. */
  lemma UploadsTurnedDown(retitle: TitleRule, s: Snapshot, ops: seq<Op>, k: nat)
    requires k < |ops| && ops[k].Attach?
    ensures TurnedDown(s, ops, SnapshotPlan(retitle, s, ops).errors, k, SnapshotPlan(retitle, s, ops[..k]).draft.work)
  {
    hide PlanFrom, InsertionIndex, TotalSeconds, Capacity, ExistingIds, ApplyOne, CapacityAllows, RoomFor, PlaceGone;
    var rules := BatchRules(retitle, s.chapters, Capacity(s), Finite(s.maxChapters));
    var before := PlanFrom(rules, Draft(s.chapters, {}), ops[..k], 0);
    var errors := SnapshotPlan(retitle, s, ops).errors;
    ErrorOfOp(rules, Draft(s.chapters, {}), ops, k);
    AttachErrors(rules, before.draft, ops[k], k);
    PlaceGoneIff(before.draft.work, ops[k].position);
    ExistingIs(s, ops[k].fileId);
    RoomIsCapacity(s, TotalSeconds(before.draft.work) + ops[k].seconds);
    TitlesAttached(rules, Draft(s.chapters, {}), ops[..k], 0, ops[k].title);
    assert forall j :: 0 <= j < k ==> (Took(ops[..k], before.errors, j) <==> Took(ops, errors, j));
    if j :| Took(ops[..k], before.errors, j) && ops[..k][j].title == ops[k].title { assert Took(ops, errors, j); }
    if j :| 0 <= j < k && Took(ops, errors, j) && ops[j].title == ops[k].title {
      assert Took(ops[..k], before.errors, j) && ops[..k][j].title == ops[k].title;
    }
  }

  /** The error of an op is the error on the list that the ops before it leave. */
  lemma {:induction false} ErrorOfOp(rules: Rules, draft: Draft, ops: seq<Op>, k: nat)
    requires k < |ops|
    ensures var before := PlanFrom(rules, draft, ops[..k], 0);
      var errors := PlanFrom(rules, draft, ops, 0).errors;
      errors[..k] == before.errors && errors[k] == ErrorOf(rules, before.draft, ops[k], k)
  {
    hide ApplyOne, AfterOne, ErrorOf;
    PlanSplitsAt(rules, draft, ops, k);
    assert ops[k..][0] == ops[k];
  }

  // ---- For a confirmed write ----

  /** A confirmed write never overfilled the Tonie it read, and reports for each upload exactly why it was not taken. */
  lemma WriteFits(w: Write, k: nat)
    requires Happened(w) && NoNegativeUploads(w.ops)
    ensures ValidRead(w.cloud.before) && |w.results| == |w.ops|
    ensures Fits(w.cloud.before.value, PlanOf(w, |w.ops|).draft.work)
    ensures k < |w.ops| && w.ops[k].Attach? ==>
      TurnedDown(w.cloud.before.value, w.ops, ErrorsOf(w.results), k, PlanOf(w, k).draft.work)
  {
    hide ApplyOutcome, PlanFrom, Fits, TurnedDown;
    WriteReports(w);
    WholePlan(w);
    PlanFits(w.retitle, w.cloud.before.value, w.ops);
    if k < |w.ops| && w.ops[k].Attach? {
      UploadsTurnedDown(w.retitle, w.cloud.before.value, w.ops, k);
      assert ErrorsOf(w.results) == SnapshotPlan(w.retitle, w.cloud.before.value, w.ops).errors;
    }
  }

  function ErrorsOf(results: seq<OpResult>): (r: seq<Option<OpError>>)
    ensures |r| == |results| && forall k :: 0 <= k < |results| ==> r[k] == results[k].error
  {
    seq(|results|, k requires 0 <= k < |results| => results[k].error)
  }
}
