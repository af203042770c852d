/** Undo, end to end: whatever the cloud answers, an accepted undo writes the plan without the undone ops. */
module CloudLaws {
  import opened Lists
  import opened Planner
  import opened PlannerLaws
  import opened UndoSteps
  import opened UndoLaws
  import opened CloudContent
  import opened CloudWrite

  // ---- The staging-to-permanent map ----

  /** An id is filled in exactly for the marked rows. */
  lemma {:induction false} IdsFilled(results: seq<OpResult>, desired: seq<Chapter>, reply: seq<Chapter>, n: nat, k: nat)
    requires n <= |desired| && n <= |reply| && k < |results| && DistinctMarks(desired, |results|)
    ensures var filled := WithIds(results, desired, reply, n)[k];
      && (forall i :: 0 <= i < n && desired[i].mark == Some(k) ==> filled.chapterId == Some(reply[i].id))
      && ((forall i :: 0 <= i < n ==> desired[i].mark != Some(k)) ==> filled == results[k])
  {
    if n > 0 { IdsFilled(results, desired, reply, n - 1, k); }
  }

  /** What a confirmed PATCH of `ops` on `before` established. */
  ghost predicate PatchConfirmed(retitle: TitleRule, s: Snapshot, ops: seq<Op>, reply: seq<Chapter>,
                                 results: seq<OpResult>)
  {
    && ValidChapters(s.chapters)
    && var plan := SnapshotPlan(retitle, s, ops);
       && DistinctMarks(plan.draft.work, |ops|)
       && Confirmed(reply, s.chapters, plan.draft.work, ProcessingIds(s.chapters))
       && results == WithIds(ResultsOf(plan.errors), plan.draft.work, reply, |plan.draft.work|)
  }

  lemma PlanRows(retitle: TitleRule, s: Snapshot, ops: seq<Op>, i: nat)
    requires ValidChapters(s.chapters)
    requires var plan := SnapshotPlan(retitle, s, ops); i < |plan.draft.work|
    ensures var plan := SnapshotPlan(retitle, s, ops);
      var c := plan.draft.work[i];
      if c.mark.None? then c.id in Ids(s.chapters)
      else Attached(c, ops, plan.errors, 0) && c.id == ops[c.mark.value].fileId && c.id !in ExistingIds(s.chapters)
  {
    var plan := SnapshotPlan(retitle, s, ops);
    var c := plan.draft.work[i];
    var rules := BatchRules(retitle, s.chapters, Capacity(s), Finite(s.maxChapters));
    RowsAreConserved(rules, Draft(s.chapters, {}), ops, 0, c);
    if Survives(c, s.chapters) {
      var k :| 0 <= k < |s.chapters| && SameAudio(s.chapters[k], c);
      assert s.chapters[k].(title := "").id == c.(title := "").id;
      assert s.chapters[k].(title := "").mark == c.(title := "").mark;
    } else {
      assert c.(title := "").id == ops[c.mark.value].fileId;
      AttachedAreFresh(rules, Draft(s.chapters, {}), ops, 0, c.mark.value);
    }
  }

  /** An attach that got a permanent id did not reuse an id of the snapshot. */
  lemma AttachedIdsAreNew(retitle: TitleRule, s: Snapshot, ops: seq<Op>, reply: seq<Chapter>, results: seq<OpResult>,
                          k: nat)
    requires PatchConfirmed(retitle, s, ops, reply, results)
    requires k < |ops| && |results| == |ops| && ops[k].Attach? && results[k].chapterId.Some?
    ensures ops[k].fileId !in Ids(s.chapters)
  {
    hide PlanFrom, WithIds;
    var plan := SnapshotPlan(retitle, s, ops);
    IdsFilled(ResultsOf(plan.errors), plan.draft.work, reply, |plan.draft.work|, k);
    var j :| 0 <= j < |plan.draft.work| && plan.draft.work[j].mark == Some(k);
    PlanRows(retitle, s, ops, j);
  }

  lemma MarkedRow(retitle: TitleRule, s: Snapshot, ops: seq<Op>, reply: seq<Chapter>, results: seq<OpResult>, i: nat)
    requires PatchConfirmed(retitle, s, ops, reply, results)
    requires i < |reply| == |SnapshotPlan(retitle, s, ops).draft.work|
    requires SnapshotPlan(retitle, s, ops).draft.work[i].mark.Some?
    ensures var c := SnapshotPlan(retitle, s, ops).draft.work[i];
      && |results| == |ops| && c.mark.value < |ops| && ops[c.mark.value].Attach? && ops[c.mark.value].fileId == c.id
      && results[c.mark.value].chapterId == Some(reply[i].id)
  {
    hide PlanFrom, WithIds, Confirmed;
    var plan := SnapshotPlan(retitle, s, ops);
    PlanRows(retitle, s, ops, i);
    IdsFilled(ResultsOf(plan.errors), plan.draft.work, reply, |plan.draft.work|, plan.draft.work[i].mark.value);
  }

  /** The confirmed id of an attach is what the map gives for its staging id, when the planned ids are unique. */
  lemma {:induction false} ConfirmedIsMapped(retitle: TitleRule, s: Snapshot, ops: seq<Op>, reply: seq<Chapter>,
                                             results: seq<OpResult>, k: nat)
    requires PatchConfirmed(retitle, s, ops, reply, results) && UniqueIds(SnapshotPlan(retitle, s, ops).draft.work)
    requires k < |ops| && |results| == |ops| && ops[k].Attach? && results[k].chapterId.Some?
    ensures Image(AssignedIds(ops, results), ops[k].fileId) == results[k].chapterId.value
  {
    hide PlanFrom, WithIds, Confirmed, AssignedIds, PatchConfirmed;
    var id := ops[k].fileId;
    var j :| 0 <= j < |ops| && ops[j].Attach? && ops[j].fileId == id
             && results[j].chapterId == Some(AssignedIds(ops, results)[id]);
    var x := RowOfResult(retitle, s, ops, reply, results, j);
    var y := RowOfResult(retitle, s, ops, reply, results, k);
    assert x == y;
  }

  /** An attach that got a permanent id has a row in the plan. */
  lemma RowOfResult(retitle: TitleRule, s: Snapshot, ops: seq<Op>, reply: seq<Chapter>, results: seq<OpResult>, k: nat)
    returns (i: nat)
    requires PatchConfirmed(retitle, s, ops, reply, results)
    requires k < |ops| && |results| == |ops| && ops[k].Attach? && results[k].chapterId.Some?
    ensures var planned := SnapshotPlan(retitle, s, ops).draft.work;
      i < |planned| && planned[i].mark == Some(k) && planned[i].id == ops[k].fileId
  {
    hide PlanFrom, WithIds;
    var plan := SnapshotPlan(retitle, s, ops);
    IdsFilled(ResultsOf(plan.errors), plan.draft.work, reply, |plan.draft.work|, k);
    i :| 0 <= i < |plan.draft.work| && plan.draft.work[i].mark == Some(k);
    PlanRows(retitle, s, ops, i);
  }

  /** The permanent id of a row, at the same place: that of the attach that marked it, or its own. */
  lemma PermanentByPosition(retitle: TitleRule, s: Snapshot, ops: seq<Op>, reply: seq<Chapter>, results: seq<OpResult>,
                            i: nat)
    requires PatchConfirmed(retitle, s, ops, reply, results) && i < |reply|
    ensures |reply| == |SnapshotPlan(retitle, s, ops).draft.work|
    ensures reply[i].id == PermanentId(results, SnapshotPlan(retitle, s, ops).draft.work[i])
  {
    hide PlanFrom, WithIds;
    var c := SnapshotPlan(retitle, s, ops).draft.work[i];
    if c.mark.Some? {
      MarkedRow(retitle, s, ops, reply, results, i);
    } else {
      assert RowMatches(ProcessingIds(s.chapters), RowOf(reply[i]), RowOf(c));
    }
  }

  /** The permanent id of a row is the image of its planned id, at the same place, when the planned ids are unique. */
  lemma {:induction false} AttachmentsMapByPosition(retitle: TitleRule, s: Snapshot, ops: seq<Op>, reply: seq<Chapter>,
                                                    results: seq<OpResult>, i: nat)
    requires PatchConfirmed(retitle, s, ops, reply, results) && UniqueIds(SnapshotPlan(retitle, s, ops).draft.work)
    requires i < |reply|
    ensures |reply| == |SnapshotPlan(retitle, s, ops).draft.work|
    ensures reply[i].id == Image(AssignedIds(ops, results), SnapshotPlan(retitle, s, ops).draft.work[i].id)
  {
    hide PlanFrom, WithIds;
    var c := SnapshotPlan(retitle, s, ops).draft.work[i];
    if c.mark.Some? {
      MarkedRow(retitle, s, ops, reply, results, i);
      ConfirmedIsMapped(retitle, s, ops, reply, results, c.mark.value);
    } else {
      PlanRows(retitle, s, ops, i);
      assert RowMatches(ProcessingIds(s.chapters), RowOf(reply[i]), RowOf(c));
      KeptIdStays(retitle, s, ops, reply, results, c.id);
    }
  }

  lemma {:induction false} KeptIdStays(retitle: TitleRule, s: Snapshot, ops: seq<Op>, reply: seq<Chapter>,
                                       results: seq<OpResult>, id: string)
    requires PatchConfirmed(retitle, s, ops, reply, results) && |results| == |ops| && id in Ids(s.chapters)
    ensures Image(AssignedIds(ops, results), id) == id
  {
    hide PatchConfirmed;
    var names := AssignedIds(ops, results);
    if id in names {
      var k :| 0 <= k < |ops| && ops[k].Attach? && ops[k].fileId == id && results[k].chapterId == Some(names[id]);
      AttachedIdsAreNew(retitle, s, ops, reply, results, k);
    }
  }

  /** The map is injective on the planned list, and sends attached rows outside the original ids. */
  lemma {:induction false} AttachmentMapIsInjective(retitle: TitleRule, s: Snapshot, ops: seq<Op>, reply: seq<Chapter>,
                                                    results: seq<OpResult>)
    requires PatchConfirmed(retitle, s, ops, reply, results) && UniqueIds(SnapshotPlan(retitle, s, ops).draft.work)
    ensures var desired := SnapshotPlan(retitle, s, ops).draft.work;
      var names := AssignedIds(ops, results);
      && InjectiveOn(names, desired)
      && forall i :: 0 <= i < |desired| ==>
           if desired[i].mark.Some? then Image(names, desired[i].id) !in Ids(s.chapters)
           else Image(names, desired[i].id) == desired[i].id
  {
    var desired := SnapshotPlan(retitle, s, ops).draft.work;
    forall i | 0 <= i < |desired|
      ensures reply[i].id == Image(AssignedIds(ops, results), desired[i].id)
    {
      AttachmentsMapByPosition(retitle, s, ops, reply, results, i);
    }
    forall i | 0 <= i < |desired| && desired[i].mark.None? ensures reply[i].id == desired[i].id {
      assert RowMatches(ProcessingIds(s.chapters), RowOf(reply[i]), RowOf(desired[i]));
    }
  }

  // ---- From the plan to the snapshot the undo meets ----

  /** A list that matches the read-back, which matched the reply, shows the plan. */
  lemma LaterListShowsPlan(retitle: TitleRule, s: Snapshot, ops: seq<Op>, reply: seq<Chapter>, results: seq<OpResult>,
                           processing: set<string>, found: seq<Row>, later: seq<Chapter>)
    requires PatchConfirmed(retitle, s, ops, reply, results)
    requires processing == ProcessingIds(s.chapters) + NewIds(results)
    requires Matches(found, Writable(reply), processing) && Matches(Writable(later), found, processing)
    ensures Shows(results, processing, SnapshotPlan(retitle, s, ops).draft.work, later)
  {
    var plan := SnapshotPlan(retitle, s, ops);
    var desired := plan.draft.work;
    MatchesIsEquivalence(Writable(later), found, Writable(reply), processing, processing);
    forall i | 0 <= i < |desired| ensures SameAs(PermanentId(results, desired[i]), processing, desired[i], later[i]) {
      PermanentByPosition(retitle, s, ops, reply, results, i);
      assert RowMatches(processing, RowOf(later[i]), RowOf(reply[i]));
      if desired[i].mark.Some? {
        IdsFilled(ResultsOf(plan.errors), desired, reply, |desired|, desired[i].mark.value);
        assert reply[i].id in NewIds(results);
        PlanRows(retitle, s, ops, i);
        assert desired[i].(title := "").kind == "file";
      } else {
        assert RowMatches(ProcessingIds(s.chapters), RowOf(reply[i]), RowOf(desired[i]));
      }
    }
  }

  /** When the planned ids are unique, the map tells the permanent ids of the rows. */
  lemma ShownIsMirrored(names: IdMap, results: seq<OpResult>, loose: set<string>, planned: seq<Chapter>,
                        later: seq<Chapter>)
    requires forall i :: 0 <= i < |planned| ==> PermanentId(results, planned[i]) == Image(names, planned[i].id)
    ensures Shows(results, loose, planned, later) <==> Mirrors(names, loose, planned, later)
  {
    hide SameAs, PermanentId;
    if Mirrors(names, loose, planned, later) {
      forall i | 0 <= i < |planned| ensures SameAs(PermanentId(results, planned[i]), loose, planned[i], later[i]) {
        assert SameRow(names, loose, planned[i], later[i]);
      }
    }
  }

  /** And mirrors it under the staging-to-permanent map, when the planned ids are unique. */
  lemma {:induction false} LaterListMirrorsPlan(retitle: TitleRule, s: Snapshot, ops: seq<Op>, reply: seq<Chapter>,
                                                results: seq<OpResult>, processing: set<string>, found: seq<Row>,
                                                later: seq<Chapter>)
    requires PatchConfirmed(retitle, s, ops, reply, results) && UniqueIds(SnapshotPlan(retitle, s, ops).draft.work)
    requires processing == ProcessingIds(s.chapters) + NewIds(results)
    requires Matches(found, Writable(reply), processing) && Matches(Writable(later), found, processing)
    ensures Mirrors(AssignedIds(ops, results), processing, SnapshotPlan(retitle, s, ops).draft.work, later)
  {
    hide PlanFrom, PatchConfirmed, Matches, Shows, Mirrors, AssignedIds, PermanentId;
    var desired := SnapshotPlan(retitle, s, ops).draft.work;
    LaterListShowsPlan(retitle, s, ops, reply, results, processing, found, later);
    PatchSizes(retitle, s, ops, reply, results);
    forall i | 0 <= i < |desired|
      ensures PermanentId(results, desired[i]) == Image(AssignedIds(ops, results), desired[i].id)
    {
      PermanentByPosition(retitle, s, ops, reply, results, i);
      AttachmentsMapByPosition(retitle, s, ops, reply, results, i);
    }
    ShownIsMirrored(AssignedIds(ops, results), results, processing, desired, later);
  }

  lemma PatchSizes(retitle: TitleRule, s: Snapshot, ops: seq<Op>, reply: seq<Chapter>, results: seq<OpResult>)
    requires PatchConfirmed(retitle, s, ops, reply, results)
    ensures |results| == |ops| && |reply| == |SnapshotPlan(retitle, s, ops).draft.work|
  {
    hide PlanFrom, WithIds;
  }

  lemma {:induction false} NoIdsNoMap(ops: seq<Op>, results: seq<OpResult>)
    requires |ops| == |results| && forall k :: 0 <= k < |results| ==> results[k].chapterId.None?
    ensures AssignedIds(ops, results) == map[]
  {
    assert forall id :: id !in AssignedIds(ops, results);
  }

  /** One finished `apply` call. */
  datatype Write = Write(session: Session, target: string, retitle: TitleRule, ops: seq<Op>, cloud: Cloud,
                         results: seq<OpResult>, receipt: UndoReceipt)

  ghost predicate Happened(w: Write) {
    ApplyOutcome(w.session, w.target, w.retitle, w.ops, w.cloud) == Written(w.results, w.receipt)
  }

  /** A confirmed write reports its plan op by op, and recorded one recipe slot per op. */
  lemma WriteReports(w: Write)
    requires Happened(w)
    ensures ValidRead(w.cloud.before) && |w.results| == |w.ops| == |w.receipt.steps|
    ensures w.receipt.owner == w.session && w.receipt.target == w.target
    ensures Reports(SnapshotPlan(w.retitle, w.cloud.before.value, w.ops), w.results)
    ensures RecordFrom(w.retitle, AssignedIds(w.ops, w.results), w.cloud.before.value.chapters, w.ops, w.results)
            == Success(w.receipt.steps)
  {
  }

  /** The staging-to-permanent map of a write. */
  ghost function NamesOf(w: Write): IdMap
    requires Happened(w)
  {
    WriteReports(w);
    AssignedIds(w.ops, w.results)
  }

  /** The plan of the first `n` ops of a write. */
  ghost function PlanOf(w: Write, n: nat): Plan
    requires Happened(w) && n <= |w.ops|
  {
    WriteReports(w);
    SnapshotPlan(w.retitle, w.cloud.before.value, w.ops[..n])
  }

  lemma WholePlan(w: Write)
    requires Happened(w)
    ensures ValidRead(w.cloud.before) && PlanOf(w, |w.ops|) == SnapshotPlan(w.retitle, w.cloud.before.value, w.ops)
  {
    assert w.ops[..|w.ops|] == w.ops;
  }

  /** A snapshot shows what the receipt expects. */
  ghost predicate StillMatches(w: Write, later: Read) {
    ValidRead(later) && Matches(Writable(later.value.chapters), w.receipt.expected, w.receipt.processing)
  }

  /** A write whose plan holds an attached row was confirmed by the PATCH reply. */
  lemma AttachedIsConfirmed(w: Write)
    requires Happened(w) && AnyAttached(PlanOf(w, |w.ops|).draft.work)
    ensures w.cloud.reply.Some? && ValidRead(w.cloud.before)
    ensures PatchConfirmed(w.retitle, w.cloud.before.value, w.ops, w.cloud.reply.value, w.results)
    ensures w.receipt.processing == ProcessingIds(w.cloud.before.value.chapters) + NewIds(w.results)
    ensures Matches(w.receipt.expected, Writable(w.cloud.reply.value), w.receipt.processing)
  {
    hide PlanFrom, AssignedIds, WithIds, RecordFrom, ReadBack, Confirmed, DistinctMarks, ValidChapters, Matches;
    WholePlan(w);
    WriteReports(w);
    MarksAreInRange(w.retitle, w.cloud.before.value, w.ops);
  }

  /** A write without attached rows gave out no ids. */
  lemma PlainWrite(w: Write)
    requires Happened(w) && !AnyAttached(PlanOf(w, |w.ops|).draft.work)
    ensures ValidRead(w.cloud.before) && forall k :: 0 <= k < |w.results| ==> w.results[k].chapterId.None?
    ensures Matches(w.receipt.expected, Writable(PlanOf(w, |w.ops|).draft.work), w.receipt.processing)
  {
    hide PlanFrom, AssignedIds, WithIds, RecordFrom, ReadBack, Confirmed, DistinctMarks, ValidChapters, Matches;
    WholePlan(w);
    WriteReports(w);
  }

  /** A write that gave out an id was confirmed by the PATCH reply. */
  lemma IdsComeFromReply(w: Write, k: nat)
    requires Happened(w) && k < |w.results| && w.results[k].chapterId.Some?
    ensures w.cloud.reply.Some? && ValidRead(w.cloud.before)
    ensures PatchConfirmed(w.retitle, w.cloud.before.value, w.ops, w.cloud.reply.value, w.results)
  {
    hide ApplyOutcome, PatchConfirmed, Matches, PlanOf;
    if AnyAttached(PlanOf(w, |w.ops|).draft.work) { AttachedIsConfirmed(w); } else { PlainWrite(w); }
  }

  /** Whatever list a later snapshot shows, if it matches the receipt it shows the plan that was written. */
  lemma WriteShows(w: Write, later: seq<Chapter>)
    requires Happened(w) && Matches(Writable(later), w.receipt.expected, w.receipt.processing)
    ensures Shows(w.results, w.receipt.processing, PlanOf(w, |w.ops|).draft.work, later)
  {
    hide ApplyOutcome, Shows, Matches, PatchConfirmed, PlanFrom;
    WholePlan(w);
    if AnyAttached(PlanOf(w, |w.ops|).draft.work) {
      AttachedIsConfirmed(w);
      LaterListShowsPlan(w.retitle, w.cloud.before.value, w.ops, w.cloud.reply.value, w.results, w.receipt.processing,
                         w.receipt.expected, later);
    } else {
      PlainWrite(w);
      PlainListShowsPlan(w.results, PlanOf(w, |w.ops|).draft.work, w.receipt.processing, w.receipt.expected, later);
    }
  }

  lemma PlainListShowsPlan(results: seq<OpResult>, desired: seq<Chapter>, processing: set<string>, found: seq<Row>,
                           later: seq<Chapter>)
    requires forall k :: 0 <= k < |results| ==> results[k].chapterId.None?
    requires Matches(found, Writable(desired), processing) && Matches(Writable(later), found, processing)
    ensures Shows(results, processing, desired, later)
  {
    MatchesIsEquivalence(Writable(later), found, Writable(desired), processing, processing);
    forall i | 0 <= i < |desired| ensures SameAs(PermanentId(results, desired[i]), processing, desired[i], later[i]) {
      assert RowMatches(processing, RowOf(later[i]), RowOf(desired[i]));
    }
  }

  /** A list that matches the receipt has unique ids, as the list that was read back. */
  lemma MatchingIsUnique(w: Write, later: seq<Chapter>)
    requires Happened(w) && Matches(Writable(later), w.receipt.expected, w.receipt.processing)
    ensures UniqueIds(later)
  {
    var found := FoundOf(w);
    hide ApplyOutcome;
    forall i, j | 0 <= i < j < |later| ensures later[i].id != later[j].id {
      assert RowMatches(w.receipt.processing, Writable(later)[i], Writable(found)[i]);
      assert RowMatches(w.receipt.processing, Writable(later)[j], Writable(found)[j]);
    }
  }

  lemma FoundOf(w: Write) returns (found: seq<Chapter>)
    requires Happened(w)
    ensures UniqueIds(found) && w.receipt.expected == Writable(found)
  {
    hide PlanFrom, AssignedIds, WithIds, RecordFrom, Confirmed, DistinctMarks, Matches, Writable, UniqueIds;
    WriteReports(w);
    var s := w.cloud.before.value;
    var desired := SnapshotPlan(w.retitle, s, w.ops).draft.work;
    if AnyAttached(desired) { MarksAreInRange(w.retitle, s, w.ops); }
    var expected := if AnyAttached(desired) then w.cloud.reply.value else desired;
    found := ReadBack(w.cloud.polls, Writable(expected), w.receipt.processing, READBACK_ATTEMPTS).value.chapters;
  }

  /** When the planned ids are unique, the list mirrors the plan under the map, which is injective on it. */
  lemma WriteMirrors(w: Write, later: seq<Chapter>)
    requires Happened(w) && UniqueIds(PlanOf(w, |w.ops|).draft.work)
    requires Matches(Writable(later), w.receipt.expected, w.receipt.processing)
    ensures var desired := PlanOf(w, |w.ops|).draft.work;
      InjectiveOn(NamesOf(w), desired) && Mirrors(NamesOf(w), w.receipt.processing, desired, later)
  {
    hide ApplyOutcome, InjectiveOn, Mirrors, Matches, PatchConfirmed, PlanFrom, AssignedIds, RecordFrom, UniqueIds,
         Shows;
    WholePlan(w);
    WriteReports(w);
    var s := w.cloud.before.value;
    var desired := PlanOf(w, |w.ops|).draft.work;
    if AnyAttached(desired) {
      AttachedIsConfirmed(w);
      LaterListMirrorsPlan(w.retitle, s, w.ops, w.cloud.reply.value, w.results, w.receipt.processing,
                           w.receipt.expected, later);
      AttachmentMapIsInjective(w.retitle, s, w.ops, w.cloud.reply.value, w.results);
    } else {
      PlainWrite(w);
      NoIdsNoMap(w.ops, w.results);
      WriteShows(w, later);
      ShownIsMirrored(map[], w.results, w.receipt.processing, desired, later);
      NoMapIsInjective(desired);
    }
  }

  lemma NoMapIsInjective(desired: seq<Chapter>)
    requires UniqueIds(desired)
    ensures InjectiveOn(map[], desired)
  {
  }

  // ---- The undone ops ----

  lemma {:induction false} RecipesNeedSuccess(retitle: TitleRule, names: IdMap, work: seq<Chapter>, ops: seq<Op>,
                                              results: seq<OpResult>, k: nat)
    requires |ops| == |results| && k < |ops|
    requires RecordFrom(retitle, names, work, ops, results).Success?
    requires RecordFrom(retitle, names, work, ops, results).value[k].Some?
    ensures results[k].error.None?
    ensures ops[k].Rename? || ops[k].Move? || (ops[k].Attach? && results[k].chapterId.Some?)
    decreases ops
  {
    if k > 0 {
      RecipesNeedSuccess(retitle, names, Replayed(retitle, work, ops[0], results[0]), ops[1..], results[1..], k - 1);
    }
  }

  /** A delete or a clear, and an op that failed, never has a recipe. */
  lemma NoRecipeForLoss(w: Write, k: nat)
    requires Happened(w) && k < |w.receipt.steps| && w.receipt.steps[k].Some?
    ensures k < |w.ops| == |w.results|
    ensures !w.ops[k].Delete? && !w.ops[k].Clear? && w.results[k].error.None?
  {
    WriteReports(w);
    RecipesNeedSuccess(w.retitle, NamesOf(w), w.cloud.before.value.chapters, w.ops, w.results, k);
  }

  /** Among the undone ops, no permanent id is the staging id of another attach of the batch. */
  ghost predicate NoCrossTalk(w: Write, first: nat)
    requires Happened(w)
  {
    WriteReports(w);
    forall k :: first <= k < |w.ops| && w.ops[k].Attach? && w.results[k].chapterId.Some?
      ==> Image(NamesOf(w), w.results[k].chapterId.value) == w.results[k].chapterId.value
  }

  /** The undone ops are the last ones: `indices` are `first .. length`. */
  ghost predicate IsTail(indices: seq<nat>, first: nat, length: nat) {
    first + |indices| == length && forall j :: 0 <= j < |indices| ==> indices[j] == first + j
  }

  lemma {:induction false} ChosenTail(steps: seq<Option<Step>>, indices: seq<nat>, first: nat)
    requires IsTail(indices, first, |steps|)
    ensures forall i :: i in indices ==> i < |steps|
    ensures Chosen(steps, indices) == Backwards(steps[first..])
    ensures (forall j :: first <= j < |steps| ==> steps[j].Some?) ==> |Chosen(steps, indices)| == |indices|
    decreases |indices|
  {
    if indices != [] {
      assert indices[0] == first;
      forall j | 0 <= j < |indices[1..]| ensures indices[1..][j] == first + 1 + j {
        assert indices[j + 1] == first + (j + 1);
      }
      ChosenTail(steps, indices[1..], first + 1);
      assert steps[first..][1..] == steps[first + 1..];
    }
  }

  ghost function RulesOf(w: Write): Rules
    requires Happened(w)
  {
    WriteReports(w);
    BatchRules(w.retitle, w.cloud.before.value.chapters, Capacity(w.cloud.before.value),
               Finite(w.cloud.before.value.maxChapters))
  }

  /** No successful attach of the write repeats an id of the running list. */
  ghost predicate Unrepeated(w: Write)
    requires Happened(w)
  {
    WriteReports(w);
    NoRepeats(RulesOf(w), Draft(w.cloud.before.value.chapters, {}), w.ops, 0)
  }

  /** Distinct file ids are enough for that. */
  lemma DistinctIsUnrepeated(w: Write)
    requires Happened(w) && DistinctAllocations(w.ops)
    ensures Unrepeated(w)
  {
    hide ApplyOutcome, DistinctAllocations, NoRepeats;
    WriteReports(w);
    DistinctNeverRepeat(RulesOf(w), Draft(w.cloud.before.value.chapters, {}), w.ops, 0);
  }

  /** Then the ids of every list the batch passes through are unique. */
  lemma UnrepeatedIsUnique(w: Write, n: nat)
    requires Happened(w) && Unrepeated(w) && n <= |w.ops|
    ensures UniqueIds(PlanOf(w, n).draft.work)
  {
    hide ApplyOutcome, NoRepeats, PlanFrom, UniqueIds;
    WriteReports(w);
    ValidIsUnique(w.cloud.before.value.chapters);
    PlanStaysUniqueIff(RulesOf(w), Draft(w.cloud.before.value.chapters, {}), w.ops, 0);
    assert UniqueIds(PlanFrom(RulesOf(w), Draft(w.cloud.before.value.chapters, {}), w.ops[..n], 0).draft.work);
  }

  lemma ValidIsUnique(cs: seq<Chapter>)
    requires ValidChapters(cs)
    ensures UniqueIds(cs)
  {
  }

  ghost function TailPlan(w: Write, first: nat): Plan
    requires Happened(w) && first <= |w.ops|
  {
    PlanFrom(RulesOf(w), PlanOf(w, first).draft, w.ops[first..], first)
  }

  /** The whole plan is the plan of the first ops, continued with the rest. */
  lemma {:induction false} SnapshotPlanContinues(retitle: TitleRule, s: Snapshot, ops: seq<Op>, first: nat)
    requires first <= |ops|
    ensures var rules := BatchRules(retitle, s.chapters, Capacity(s), Finite(s.maxChapters));
      var head := SnapshotPlan(retitle, s, ops[..first]);
      var tail := PlanFrom(rules, head.draft, ops[first..], first);
      SnapshotPlan(retitle, s, ops) == Plan(tail.draft, head.errors + tail.errors)
  {
    PlanSplitsAt(BatchRules(retitle, s.chapters, Capacity(s), Finite(s.maxChapters)), Draft(s.chapters, {}),
      ops, first);
  }

  lemma PlanContinues(w: Write, first: nat)
    requires Happened(w) && first <= |w.ops|
    ensures PlanOf(w, |w.ops|) == Plan(TailPlan(w, first).draft, PlanOf(w, first).errors + TailPlan(w, first).errors)
  {
    WholePlan(w);
    SnapshotPlanContinues(w.retitle, w.cloud.before.value, w.ops, first);
  }

  lemma ReportsContinue(w: Write, first: nat)
    requires Happened(w) && first <= |w.ops|
    ensures |w.results| == |w.ops|
    ensures Reports(PlanOf(w, first), w.results[..first]) && Reports(TailPlan(w, first), w.results[first..])
  {
    WriteReports(w);
    WholePlan(w);
    PlanContinues(w, first);
    var all := PlanOf(w, |w.ops|).errors;
    assert PlanOf(w, first).errors == all[..first] && TailPlan(w, first).errors == all[first..];
  }

  lemma RepeatsContinue(w: Write, first: nat)
    requires Happened(w) && Unrepeated(w) && first <= |w.ops|
    ensures ValidRead(w.cloud.before)
    ensures NoRepeats(RulesOf(w), Draft(w.cloud.before.value.chapters, {}), w.ops[..first], 0)
    ensures NoRepeats(RulesOf(w), PlanOf(w, first).draft, w.ops[first..], first)
    ensures KnownFiles(RulesOf(w), w.cloud.before.value.chapters) && KnownFiles(RulesOf(w), PlanOf(w, first).draft.work)
  {
    hide *;
    StartsUnrepeated(w, first);
    SnapshotFilesAreKnown(w);
    var start := Draft(w.cloud.before.value.chapters, {});
    NoRepeatsSplits(RulesOf(w), start, w.ops[..first], w.ops[first..], 0);
    KnownAfterPlan(RulesOf(w), start, w.ops[..first], 0);
  }

  lemma StartsUnrepeated(w: Write, first: nat)
    requires Happened(w) && Unrepeated(w) && first <= |w.ops|
    ensures w.cloud.before.Some? && |w.ops[..first]| == first
    ensures NoRepeats(RulesOf(w), Draft(w.cloud.before.value.chapters, {}), w.ops[..first] + w.ops[first..], 0)
    ensures PlanOf(w, first) == PlanFrom(RulesOf(w), Draft(w.cloud.before.value.chapters, {}), w.ops[..first], 0)
  {
    hide ApplyOutcome, NoRepeats, PlanFrom, PlanOf, RulesOf;
    WriteReports(w);
    PrefixPlan(w, first);
    Halves(w.ops, first);
  }

  lemma PrefixPlan(w: Write, first: nat)
    requires Happened(w) && first <= |w.ops|
    ensures w.cloud.before.Some?
    ensures PlanOf(w, first) == PlanFrom(RulesOf(w), Draft(w.cloud.before.value.chapters, {}), w.ops[..first], 0)
  {
    hide ApplyOutcome, PlanFrom;
    WriteReports(w);
  }

  lemma Halves<T>(s: seq<T>, n: nat)
    requires n <= |s|
    ensures s[..n] + s[n..] == s && |s[..n]| == n
  {
  }

  lemma SnapshotFilesAreKnown(w: Write)
    requires Happened(w)
    ensures ValidRead(w.cloud.before) && KnownFiles(RulesOf(w), w.cloud.before.value.chapters)
  {
    hide ApplyOutcome, Ids;
    WriteReports(w);
  }

  /** The recipes of the last ops were recorded on the list their predecessors planned. */
  lemma TailRecorded(w: Write, first: nat) returns (work: seq<Chapter>)
    requires Happened(w) && Unrepeated(w) && first <= |w.ops|
    ensures |w.results| == |w.ops| == |w.receipt.steps|
    ensures Alike(PlanOf(w, first).draft.work, work)
    ensures RecordFrom(w.retitle, NamesOf(w), work, w.ops[first..], w.results[first..])
      == Success(w.receipt.steps[first..])
  {
    hide *;
    TailParts(w, first);
    RecordedWhole(w, first);
    work := ReplayRecords(RulesOf(w), NamesOf(w), w.cloud.before.value.chapters, w.ops[..first], w.results[..first],
                          w.ops[first..], w.results[first..], w.receipt.steps);
  }

  lemma TailParts(w: Write, first: nat)
    requires Happened(w) && Unrepeated(w) && first <= |w.ops|
    ensures w.cloud.before.Some? && |w.results| == |w.ops| == |w.receipt.steps| && RulesOf(w).retitle == w.retitle
    ensures var chapters := w.cloud.before.value.chapters;
      && NoRepeats(RulesOf(w), Draft(chapters, {}), w.ops[..first], 0) && KnownFiles(RulesOf(w), chapters)
      && PlanOf(w, first) == PlanFrom(RulesOf(w), Draft(chapters, {}), w.ops[..first], 0)
      && Reports(PlanOf(w, first), w.results[..first])
  {
    hide ApplyOutcome, NoRepeats, KnownFiles, PlanFrom, Reports, Unrepeated;
    WriteReports(w);
    ReportsContinue(w, first);
    RepeatsContinue(w, first);
  }

  lemma RecordedWhole(w: Write, first: nat)
    requires Happened(w) && first <= |w.ops|
    ensures w.cloud.before.Some? && |w.results| == |w.ops|
    ensures RecordFrom(w.retitle, NamesOf(w), w.cloud.before.value.chapters, w.ops[..first] + w.ops[first..],
                       w.results[..first] + w.results[first..]) == Success(w.receipt.steps)
  {
    hide ApplyOutcome, RecordFrom, AssignedIds;
    WriteReports(w);
    assert w.ops[..first] + w.ops[first..] == w.ops;
    assert w.results[..first] + w.results[first..] == w.results;
  }

  lemma ReplayRecords(rules: Rules, names: IdMap, chapters: seq<Chapter>, a: seq<Op>, ra: seq<OpResult>, b: seq<Op>,
                      rb: seq<OpResult>, steps: seq<Option<Step>>) returns (work: seq<Chapter>)
    requires NoRepeats(rules, Draft(chapters, {}), a, 0) && KnownFiles(rules, chapters)
    requires Reports(PlanFrom(rules, Draft(chapters, {}), a, 0), ra) && |rb| == |b|
    requires RecordFrom(rules.retitle, names, chapters, a + b, ra + rb) == Success(steps)
    ensures |steps| == |a| + |b| && Alike(PlanFrom(rules, Draft(chapters, {}), a, 0).draft.work, work)
    ensures RecordFrom(rules.retitle, names, work, b, rb) == Success(steps[|a|..])
  {
    hide NoRepeats, KnownFiles, PlanFrom, RecordFrom, ReplayAll;
    ReplayRefinesBatch(rules, Draft(chapters, {}), a, 0, ra, chapters);
    RecordingSucceeds(rules, names, Draft(chapters, {}), a, 0, ra, chapters);
    LaterSlots(rules.retitle, names, chapters, a, ra, b, rb, steps);
    work := ReplayAll(rules.retitle, chapters, a, ra);
  }

  lemma {:induction false} LaterSlots(retitle: TitleRule, names: IdMap, work: seq<Chapter>, a: seq<Op>,
                                      ra: seq<OpResult>, b: seq<Op>, rb: seq<OpResult>, steps: seq<Option<Step>>)
    requires |ra| == |a| && |rb| == |b| && RecordFrom(retitle, names, work, a, ra).Success?
    requires RecordFrom(retitle, names, work, a + b, ra + rb) == Success(steps)
    ensures |steps| == |a| + |b| && RecordFrom(retitle, names, ReplayAll(retitle, work, a, ra), b, rb)
      == Success(steps[|a|..])
  {
    hide RecordFrom, ReplayAll;
    RecordSplits(retitle, names, work, a, ra, b, rb);
  }

  /** Every slot from `first` on holds a recipe. */
  ghost predicate HasRecipes(steps: seq<Option<Step>>, first: nat) {
    first <= |steps| && forall j :: first <= j < |steps| ==> steps[j].Some?
  }

  lemma TailInvertible(w: Write, first: nat)
    requires Happened(w) && Unrepeated(w) && NoCrossTalk(w, first)
    requires HasRecipes(w.receipt.steps, first)
    ensures first <= |w.ops| == |w.results|
    ensures AllInvertible(NamesOf(w), w.ops[first..], w.results[first..])
  {
    hide ApplyOutcome, Unrepeated, AssignedIds, RecordFrom, Invertible;
    WriteReports(w);
    forall k | 0 <= k < |w.ops[first..]| ensures Invertible(NamesOf(w), w.ops[first..][k], w.results[first..][k]) {
      OpInvertible(w, first, first + k);
    }
  }

  lemma OpInvertible(w: Write, first: nat, k: nat)
    requires Happened(w) && Unrepeated(w) && NoCrossTalk(w, first)
    requires HasRecipes(w.receipt.steps, first) && first <= k < |w.ops| == |w.results|
    ensures Invertible(NamesOf(w), w.ops[k], w.results[k])
  {
    hide ApplyOutcome, Unrepeated, AssignedIds, RecordFrom, PatchConfirmed, UniqueIds;
    WriteReports(w);
    RecipesNeedSuccess(w.retitle, NamesOf(w), w.cloud.before.value.chapters, w.ops, w.results, k);
    if w.ops[k].Attach? { ConfirmedName(w, k); }
  }

  /** The confirmed id of an attach is what the map gives for its staging id. */
  lemma ConfirmedName(w: Write, k: nat)
    requires Happened(w) && Unrepeated(w) && k < |w.ops| && w.ops[k].Attach?
    requires |w.results| == |w.ops| && w.results[k].chapterId.Some?
    ensures Image(NamesOf(w), w.ops[k].fileId) == w.results[k].chapterId.value
  {
    hide ApplyOutcome, Unrepeated, AssignedIds, PatchConfirmed, UniqueIds, PlanFrom;
    WholePlan(w);
    UnrepeatedIsUnique(w, |w.ops|);
    IdsComeFromReply(w, k);
    ConfirmedIsMapped(w.retitle, w.cloud.before.value, w.ops, w.cloud.reply.value, w.results, k);
  }

  /** Running the recipes from `first` on, last first, on `later` leaves a mirror of the plan of the first ops. */
  ghost predicate TailRestored(w: Write, first: nat, later: seq<Chapter>)
    requires Happened(w)
  {
    && first <= |w.ops| && first <= |w.receipt.steps|
    && var r := ApplySteps(later, Backwards(w.receipt.steps[first..]));
       r.Success? && Mirrors(NamesOf(w), w.receipt.processing, PlanOf(w, first).draft.work, r.value)
  }

  /** The recipes of the last ops, run on any list that matches the receipt, leave a mirror of the plan
      without those ops. */
  lemma TailUndone(w: Write, first: nat, later: seq<Chapter>)
    requires Happened(w) && Unrepeated(w) && NoCrossTalk(w, first)
    requires HasRecipes(w.receipt.steps, first)
    requires Matches(Writable(later), w.receipt.expected, w.receipt.processing)
    ensures TailRestored(w, first, later)
  {
    hide ApplyOutcome, Unrepeated, NoCrossTalk, Matches, NoRepeats, KnownFiles, RecordFrom, PlanFrom, Reports, Alike,
         Mirrors, InjectiveOn, AllInvertible, AssignedIds, UniqueIds;
    WriteReports(w);
    UnrepeatedIsUnique(w, |w.ops|);
    WriteMirrors(w, later);
    PlanContinues(w, first);
    ReportsContinue(w, first);
    RepeatsContinue(w, first);
    TailInvertible(w, first);
    var work := TailRecorded(w, first);
    UndoSuffix(RulesOf(w), PlanOf(w, first).draft, w.ops[first..], first, w.results[first..], work,
               NamesOf(w), w.receipt.processing, later);
  }

  // ---- The main results ----

  lemma MirrorsByRows(names: IdMap, loose: set<string>, planned: seq<Chapter>, a: seq<Chapter>, b: seq<Chapter>)
    requires Mirrors(names, loose, planned, a) && Writable(a) == Writable(b)
    ensures Mirrors(names, loose, planned, b)
  {
    forall i | 0 <= i < |planned| ensures SameRow(names, loose, planned[i], b[i]) {
      assert |a| == |Writable(a)| == |Writable(b)| == |b|;
      assert RowOf(a[i]) == Writable(a)[i] == Writable(b)[i] == RowOf(b[i]);
      assert SameRow(names, loose, planned[i], a[i]);
    }
  }

  /** The list an undo that was not refused writes, or finds already there. */
  ghost function LeftBy(r: UndoOutcome, later: Read): seq<Chapter>
    requires later.Some?
  {
    if r.UndoPatched? then r.list else later.value.chapters
  }

  /** End-to-end undo. After any confirmed write and any later snapshot, undoing the last ops of the write is
      refused exactly when the snapshot no longer matches the receipt; otherwise the list it leaves mirrors the
      plan of the same batch without those ops: ids under the staging-to-permanent map, order, titles and types,
      and file and duration of every chapter that is not processing. */
  lemma UndoRestoresPlan(w: Write, indices: seq<nat>, first: nat, later: UndoCloud)
    requires Happened(w) && Unrepeated(w) && NoCrossTalk(w, first)
    requires indices != [] && IsTail(indices, first, |w.receipt.steps|)
    requires HasRecipes(w.receipt.steps, first)
    ensures first <= |w.ops| && forall i :: i in indices ==> i < |w.receipt.steps|
    ensures var r := UndoResult(w.session, w.target, w.receipt, indices, later);
      && (r.UndoRefused? <==> !StillMatches(w, later.before))
      && (!r.UndoRefused? ==> Mirrors(NamesOf(w), w.receipt.processing, PlanOf(w, first).draft.work,
                                      LeftBy(r, later.before)))
  {
    hide ApplyOutcome, Unrepeated, NoCrossTalk, HasRecipes, IsTail, Mirrors, UndoResult;
    TailIndices(w, indices, first);
    FirstFits(w, first);
    if StillMatches(w, later.before) {
      MatchedIsUndone(w, indices, first, later);
    } else {
      ChangedIsRefused(w, indices, later);
    }
  }

  lemma FirstFits(w: Write, first: nat)
    requires HasRecipes(w.receipt.steps, first)
    ensures first <= |w.receipt.steps|
  {
  }

  lemma MatchedIsUndone(w: Write, indices: seq<nat>, first: nat, later: UndoCloud)
    requires Happened(w) && Unrepeated(w) && NoCrossTalk(w, first) && StillMatches(w, later.before)
    requires indices != [] && IsTail(indices, first, |w.receipt.steps|) && HasRecipes(w.receipt.steps, first)
    ensures first <= |w.ops| && forall i :: i in indices ==> i < |w.receipt.steps|
    ensures var r := UndoResult(w.session, w.target, w.receipt, indices, later);
      !r.UndoRefused? && Mirrors(NamesOf(w), w.receipt.processing, PlanOf(w, first).draft.work, LeftBy(r, later.before))
  {
    hide ApplyOutcome, Unrepeated, NoCrossTalk, Mirrors, PlanOf, NamesOf, ReadBack, RecordFrom, Matches,
         Writable, ApplySteps;
    WriteReports(w);
    TailIndices(w, indices, first);
    ChosenTail(w.receipt.steps, indices, first);
    var chapters := later.before.value.chapters;
    TailUndone(w, first, chapters);
    var desired := ApplySteps(chapters, Backwards(w.receipt.steps[first..])).value;
    if Writable(desired) == Writable(chapters) {
      MirrorsByRows(NamesOf(w), w.receipt.processing, PlanOf(w, first).draft.work, desired, chapters);
    }
  }

  // ---- The pure round trip ----

  /** The list as the cloud returns it after accepting the plan. */
  function Renamed(names: IdMap, planned: seq<Chapter>): (r: seq<Chapter>)
    ensures |r| == |planned|
  {
    seq(|planned|, i requires 0 <= i < |planned| => planned[i].(id := Image(names, planned[i].id), mark := None))
  }

  lemma RenamedMirrors(names: IdMap, planned: seq<Chapter>)
    ensures Mirrors(names, {}, planned, Renamed(names, planned))
  {
  }

  lemma MirroredOriginals(names: IdMap, chapters: seq<Chapter>, restored: seq<Chapter>)
    requires Mirrors(names, {}, chapters, restored)
    requires forall i :: 0 <= i < |chapters| ==> Image(names, chapters[i].id) == chapters[i].id
    ensures Writable(restored) == Writable(chapters)
  {
    forall i | 0 <= i < |chapters| ensures RowOf(restored[i]) == RowOf(chapters[i]) {
      assert SameRow(names, {}, chapters[i], restored[i]);
    }
  }

  /** Any run of successful renames, moves and confirmed attaches, undone last first on the renamed result, gives back
      the original list: ids, order, titles, files, durations and types. */
  lemma {:induction false} PureRoundTrip(rules: Rules, chapters: seq<Chapter>, ops: seq<Op>, results: seq<OpResult>,
                                         names: IdMap)
    requires AllInvertible(names, ops, results) && Reports(PlanFrom(rules, Draft(chapters, {}), ops, 0), results)
    requires NoRepeats(rules, Draft(chapters, {}), ops, 0) && KnownFiles(rules, chapters)
    requires InjectiveOn(names, PlanFrom(rules, Draft(chapters, {}), ops, 0).draft.work)
    requires forall i :: 0 <= i < |chapters| ==> Image(names, chapters[i].id) == chapters[i].id
    ensures var steps := RecordFrom(rules.retitle, names, chapters, ops, results);
      && steps.Success? && (forall k :: 0 <= k < |steps.value| ==> steps.value[k].Some?)
      && var r := ApplySteps(Renamed(names, PlanFrom(rules, Draft(chapters, {}), ops, 0).draft.work),
        Backwards(steps.value));
         r.Success? && Writable(r.value) == Writable(chapters)
  {
    hide PlanFrom, RecordFrom, ApplySteps, Backwards, Reports, NoRepeats, KnownFiles,
         InjectiveOn, Mirrors, Renamed;
    var draft := Draft(chapters, {});
    var planned := PlanFrom(rules, draft, ops, 0).draft.work;
    RenamedMirrors(names, planned);
    UndoSuffix(rules, draft, ops, 0, results, chapters, names, {}, Renamed(names, planned));
    var steps := RecordFrom(rules.retitle, names, chapters, ops, results).value;
    MirroredOriginals(names, chapters, ApplySteps(Renamed(names, planned), Backwards(steps)).value);
  }

  // ---- Where undo depends on the cloud's ids ----

  lemma ShowsById(results: seq<OpResult>, loose: set<string>, planned: seq<Chapter>, later: seq<Chapter>, k: nat)
    requires Shows(results, loose, planned, later) && UniqueIds(later) && k < |planned|
    ensures Find(later, PermanentId(results, planned[k])) == Some(k)
  {
    assert SameAs(PermanentId(results, planned[k]), loose, planned[k], later[k]);
    assert IsOnly(later, PermanentId(results, planned[k]), k);
  }

  /** Removing the uploaded row leaves the list planned before it. */
  lemma {:induction false} RemovesTheUpload(results: seq<OpResult>, loose: set<string>, earlier: seq<Chapter>, k: nat,
                                            added: Chapter, later: seq<Chapter>)
    requires k <= |earlier| && Shows(results, loose, InsertAt(earlier, k, added), later) && UniqueIds(later)
    ensures var r := ApplySteps(later, [Remove(PermanentId(results, added))]);
      r.Success? && Shows(results, loose, earlier, r.value)
  {
    hide PermanentId, SameAs, Find;
    var desired := InsertAt(earlier, k, added);
    ShowsById(results, loose, desired, later, k);
    assert [Remove(PermanentId(results, added))][1..] == [];
    var left := RemoveAt(later, k);
    forall i | 0 <= i < |earlier| ensures SameAs(PermanentId(results, earlier[i]), loose, earlier[i], left[i]) {
      var y := if i < k then i else i + 1;
      assert SameAs(PermanentId(results, desired[y]), loose, desired[y], later[y]);
    }
  }

  /** Removing any other row leaves the uploaded row, which the earlier plan does not have. */
  lemma {:induction false} KeepsTheUpload(results: seq<OpResult>, loose: set<string>, earlier: seq<Chapter>, k: nat,
                                          added: Chapter, later: seq<Chapter>, wrong: string)
    requires k <= |earlier| && Shows(results, loose, InsertAt(earlier, k, added), later) && UniqueIds(later)
    requires wrong != PermanentId(results, added)
    ensures var r := ApplySteps(later, [Remove(wrong)]); !(r.Success? && Shows(results, loose, earlier, r.value))
  {
    hide PermanentId, InsertAt;
    var r := ApplyStep(later, Remove(wrong));
    var desired := InsertAt(earlier, k, added);
    assert SameAs(PermanentId(results, desired[k]), loose, desired[k], later[k]);
    if r.Success? {
      assert [Remove(wrong)][1..] == [];
      var j := Find(later, wrong).value;
      var x := if k < j then k else k - 1;
      assert r.value[x] == later[k];
      if x < |earlier| {
        var y := if x < k then x else x + 1;
        assert earlier[x] == desired[y] && SameAs(PermanentId(results, desired[y]), loose, desired[y], later[y]);
        assert later[y].id != later[k].id;
        assert !SameAs(PermanentId(results, earlier[x]), loose, earlier[x], r.value[x]);
      }
    }
  }

  lemma SingleAttach(rules: Rules, draft: Draft, op: Op, number: nat) returns (k: nat)
    requires op.Attach? && PlanFrom(rules, draft, [op], number).errors == [None]
    ensures k <= |draft.work|
    ensures PlanFrom(rules, draft, [op], number).draft.work == InsertAt(draft.work, k, NewChapter(op, number))
  {
    var next := AfterOne(rules, draft, op, number);
    assert [op][1..] == [];
    assert PlanFrom(rules, next, [], number + 1) == Plan(next, []);
    assert PlanFrom(rules, draft, [op], number).errors[0] == ErrorOf(rules, draft, op, number);
    k := AttachChecks(rules, draft, op).value;
  }

  /** The recipe of an attach removes its permanent id, or what the map gives for that. */
  lemma {:induction false} AttachRecipe(retitle: TitleRule, names: IdMap, work: seq<Chapter>, ops: seq<Op>,
                                        results: seq<OpResult>, k: nat)
    requires |ops| == |results| && k < |ops| && ops[k].Attach?
    requires RecordFrom(retitle, names, work, ops, results).Success?
    requires RecordFrom(retitle, names, work, ops, results).value[k].Some?
    ensures results[k].chapterId.Some?
    ensures RecordFrom(retitle, names, work, ops, results).value[k]
            == Some(Remove(Image(names, results[k].chapterId.value)))
    decreases ops
  {
    hide Replayed;
    if k > 0 {
      AttachRecipe(retitle, names, Replayed(retitle, work, ops[0], results[0]), ops[1..], results[1..], k - 1);
    }
  }

  /** The last op of a write, when it is an upload with a recipe: its row, and the recipe that removes it. */
  ghost predicate EndsInUpload(w: Write) {
    && Happened(w) && w.ops != [] && |w.receipt.steps| == |w.ops|
    && w.ops[|w.ops| - 1].Attach? && w.receipt.steps[|w.ops| - 1].Some?
  }

  lemma LastRow(w: Write) returns (k: nat)
    requires EndsInUpload(w)
    ensures var n := |w.ops| - 1;
      && k <= |PlanOf(w, n).draft.work|
      && PlanOf(w, |w.ops|).draft.work == InsertAt(PlanOf(w, n).draft.work, k, NewChapter(w.ops[n], n))
  {
    var n := |w.ops| - 1;
    NoRecipeForLoss(w, n);
    PlanContinues(w, n);
    ReportsContinue(w, n);
    assert w.ops[n..] == [w.ops[n]] && w.results[n..] == [w.results[n]];
    assert TailPlan(w, n).errors == [None];
    k := SingleAttach(RulesOf(w), PlanOf(w, n).draft, w.ops[n], n);
  }

  lemma LastStep(w: Write, n: nat)
    requires Happened(w) && n + 1 == |w.ops| == |w.results| == |w.receipt.steps|
    requires w.ops[n].Attach? && w.receipt.steps[n].Some?
    ensures w.results[n].chapterId.Some?
    ensures w.receipt.steps[n] == Some(Remove(Image(NamesOf(w), w.results[n].chapterId.value)))
  {
    hide ApplyOutcome, RecordFrom, AssignedIds;
    WriteReports(w);
    AttachRecipe(w.retitle, NamesOf(w), w.cloud.before.value.chapters, w.ops, w.results, n);
  }

  lemma LastRecipe(w: Write, n: nat)
    requires Happened(w) && n + 1 == |w.ops| == |w.results| == |w.receipt.steps|
    requires w.ops[n].Attach? && w.receipt.steps[n].Some?
    ensures w.results[n].chapterId.Some?
    ensures PermanentId(w.results, NewChapter(w.ops[n], n)) == w.results[n].chapterId.value
    ensures Backwards(w.receipt.steps[n..]) == [Remove(Image(NamesOf(w), w.results[n].chapterId.value))]
  {
    hide Happened, NamesOf, Image;
    LastStep(w, n);
    assert w.receipt.steps[n..] == [w.receipt.steps[n]] && w.receipt.steps[n..][1..] == [];
    assert Backwards([]) == [];
  }

  /** Running the recipes from `first` on, last first, on `later` leaves a list that shows the plan of the first ops. */
  ghost predicate TailShown(w: Write, first: nat, later: seq<Chapter>)
    requires Happened(w)
  {
    && first <= |w.ops| && first <= |w.receipt.steps|
    && var r := ApplySteps(later, Backwards(w.receipt.steps[first..]));
       r.Success? && Shows(w.results, w.receipt.processing, PlanOf(w, first).draft.work, r.value)
  }

  /** Undoing the last upload of a write is right exactly when its permanent id is not itself remapped, whether file ids
      repeat or not. */
  lemma LastUploadUndoneIff(w: Write, later: seq<Chapter>)
    requires EndsInUpload(w) && Matches(Writable(later), w.receipt.expected, w.receipt.processing)
    ensures TailShown(w, |w.ops| - 1, later) <==> NoCrossTalk(w, |w.ops| - 1)
  {
    hide ApplyOutcome, Matches, Shows, PlanOf, UniqueIds, Backwards, ApplySteps, PermanentId, NamesOf, Image, InsertAt;
    var n := |w.ops| - 1;
    WriteReports(w);
    LastRecipe(w, n);
    var k := LastRow(w);
    WriteShows(w, later);
    MatchingIsUnique(w, later);
    var earlier, added := PlanOf(w, n).draft.work, NewChapter(w.ops[n], n);
    LastCrosses(w);
    if NoCrossTalk(w, n) {
      RemovesTheUpload(w.results, w.receipt.processing, earlier, k, added, later);
    } else {
      KeepsTheUpload(w.results, w.receipt.processing, earlier, k, added, later,
        Image(NamesOf(w), w.results[n].chapterId.value));
    }
  }

  lemma LastCrosses(w: Write)
    requires EndsInUpload(w) && |w.results| == |w.ops| && w.results[|w.ops| - 1].chapterId.Some?
    ensures var cid := w.results[|w.ops| - 1].chapterId.value;
      NoCrossTalk(w, |w.ops| - 1) <==> Image(NamesOf(w), cid) == cid
  {
    hide ApplyOutcome, NamesOf;
  }

  /** What one submission of the queue can be: edits, or a single upload at the end of its write. */
  ghost predicate OneKind(w: Write, first: nat) {
    && first <= |w.ops|
    && (OnlyEdits(w, first) || (first + 1 == |w.ops| && w.ops[first].Attach?))
  }

  ghost predicate OnlyEdits(w: Write, first: nat) {
    forall k :: first <= k < |w.ops| ==> !w.ops[k].Attach?
  }

  /** The undo of the ops from `first` on left the list it should: it shows the plan of the same batch without them. */
  ghost predicate UndoneAs(w: Write, first: nat, r: UndoOutcome, later: Read)
    requires Happened(w) && first <= |w.ops| && later.Some?
  {
    !r.UndoRefused? && Shows(w.results, w.receipt.processing, PlanOf(w, first).draft.work, LeftBy(r, later))
  }

  lemma ShowsByRows(results: seq<OpResult>, loose: set<string>, planned: seq<Chapter>, a: seq<Chapter>, b: seq<Chapter>)
    requires Writable(a) == Writable(b)
    ensures Shows(results, loose, planned, a) <==> Shows(results, loose, planned, b)
  {
    assert |a| == |Writable(a)| == |Writable(b)| == |b|;
    forall i | 0 <= i < |a| ensures RowOf(a[i]) == RowOf(b[i]) {
      assert RowOf(a[i]) == Writable(a)[i] == Writable(b)[i] == RowOf(b[i]);
    }
  }

  /** What the recipes leave, on a list that still matches, is what the undo writes or finds already there. */
  lemma ShownIsUndone(w: Write, indices: seq<nat>, first: nat, later: UndoCloud)
    requires Happened(w) && StillMatches(w, later.before) && first <= |w.ops|
    requires indices != [] && IsTail(indices, first, |w.receipt.steps|) && HasRecipes(w.receipt.steps, first)
    ensures forall i :: i in indices ==> i < |w.receipt.steps|
    ensures UndoneAs(w, first, UndoResult(w.session, w.target, w.receipt, indices, later), later.before)
            <==> TailShown(w, first, later.before.value.chapters)
  {
    hide ApplyOutcome, Shows, PlanOf, ReadBack, RecordFrom, Matches, Writable, ApplySteps;
    WriteReports(w);
    TailIndices(w, indices, first);
    ChosenTail(w.receipt.steps, indices, first);
    var chapters := later.before.value.chapters;
    var desired := ApplySteps(chapters, Backwards(w.receipt.steps[first..]));
    if desired.Success? && Writable(desired.value) == Writable(chapters) {
      ShowsByRows(w.results, w.receipt.processing, PlanOf(w, first).draft.work, chapters, desired.value);
    }
  }

  /** Undoing a submission at the end of a confirmed write is refused when the list changed. On a list that still
      matches, undoing an upload leaves the plan without it exactly when its permanent id is not itself remapped;
      undoing edits leaves the plan without them if no successful attach of the write repeats an id of
      the running list. */
  lemma UndoRestoresIff(w: Write, indices: seq<nat>, first: nat, later: UndoCloud)
    requires Happened(w) && OneKind(w, first)
    requires indices != [] && IsTail(indices, first, |w.receipt.steps|) && HasRecipes(w.receipt.steps, first)
    ensures forall i :: i in indices ==> i < |w.receipt.steps|
    ensures !StillMatches(w, later.before) ==> UndoResult(w.session, w.target, w.receipt, indices, later).UndoRefused?
    ensures StillMatches(w, later.before) && (OnlyEdits(w, first) ==> Unrepeated(w)) ==>
      var r := UndoResult(w.session, w.target, w.receipt, indices, later);
      UndoneAs(w, first, r, later.before) <==> NoCrossTalk(w, first)
    ensures OnlyEdits(w, first) ==> NoCrossTalk(w, first)
  {
    hide ApplyOutcome, UndoResult, TailShown, Shows, NoCrossTalk, StillMatches, OnlyEdits, UndoneAs, EndsInUpload,
         HasRecipes, IsTail, RecordFrom, PlanFrom, Unrepeated;
    EditsDoNotCross(w, first);
    TailIndices(w, indices, first);
    if !StillMatches(w, later.before) {
      ChangedIsRefused(w, indices, later);
    } else if !OnlyEdits(w, first) {
      UploadUndoneIff(w, indices, first, later);
    } else if Unrepeated(w) {
      EditsAreUndone(w, indices, first, later);
    }
  }

  lemma UploadUndoneIff(w: Write, indices: seq<nat>, first: nat, later: UndoCloud)
    requires Happened(w) && OneKind(w, first) && !OnlyEdits(w, first) && StillMatches(w, later.before)
    requires indices != [] && IsTail(indices, first, |w.receipt.steps|) && HasRecipes(w.receipt.steps, first)
    ensures forall i :: i in indices ==> i < |w.receipt.steps|
    ensures UndoneAs(w, first, UndoResult(w.session, w.target, w.receipt, indices, later), later.before)
            <==> NoCrossTalk(w, first)
  {
    hide ApplyOutcome, UndoResult, TailShown, Shows, NoCrossTalk, UndoneAs, OnlyEdits;
    TailIndices(w, indices, first);
    assert first + 1 == |w.ops| && w.ops[first].Attach?;
    LastUploadUndoneIff(w, later.before.value.chapters);
    ShownIsUndone(w, indices, first, later);
  }

  lemma EditsAreUndone(w: Write, indices: seq<nat>, first: nat, later: UndoCloud)
    requires Happened(w) && Unrepeated(w) && OnlyEdits(w, first) && StillMatches(w, later.before) && first <= |w.ops|
    requires indices != [] && IsTail(indices, first, |w.receipt.steps|) && HasRecipes(w.receipt.steps, first)
    ensures forall i :: i in indices ==> i < |w.receipt.steps|
    ensures UndoneAs(w, first, UndoResult(w.session, w.target, w.receipt, indices, later), later.before)
  {
    hide ApplyOutcome, UndoResult, Shows, Mirrors, NoCrossTalk, UndoneAs, OnlyEdits, Unrepeated, PlanOf, HasRecipes,
         IsTail, NamesOf, PermanentId, Image, ApplySteps, Backwards;
    EditsDoNotCross(w, first);
    TailUndone(w, first, later.before.value.chapters);
    forall i | 0 <= i < |PlanOf(w, first).draft.work|
      ensures PermanentId(w.results, PlanOf(w, first).draft.work[i])
        == Image(NamesOf(w), PlanOf(w, first).draft.work[i].id)
    {
      NamesArePermanent(w, first, i);
    }
    RestoredIsShown(w, first, later.before.value.chapters);
    ShownIsUndone(w, indices, first, later);
  }

  lemma RestoredIsShown(w: Write, first: nat, later: seq<Chapter>)
    requires Happened(w) && TailRestored(w, first, later)
    requires forall i :: 0 <= i < |PlanOf(w, first).draft.work| ==>
      PermanentId(w.results, PlanOf(w, first).draft.work[i]) == Image(NamesOf(w), PlanOf(w, first).draft.work[i].id)
    ensures TailShown(w, first, later)
  {
    hide ApplyOutcome, PlanOf, NamesOf, PermanentId, Image, Shows, Mirrors, ApplySteps, Backwards;
    var r := ApplySteps(later, Backwards(w.receipt.steps[first..]));
    ShownIsMirrored(NamesOf(w), w.results, w.receipt.processing, PlanOf(w, first).draft.work, r.value);
  }

  // ---- The names of the rows that edits leave in place ----

  ghost predicate IsMarked(work: seq<Chapter>, m: nat) {
    exists i :: 0 <= i < |work| && work[i].mark == Some(m)
  }

  lemma EditKeepsMark(rules: Rules, draft: Draft, op: Op, number: nat, m: nat)
    requires (op.Rename? || op.Move?) && IsMarked(draft.work, m)
    ensures IsMarked(AfterOne(rules, draft, op, number).work, m)
  {
    hide Find, InsertionIndex;
    var work, after := draft.work, AfterOne(rules, draft, op, number).work;
    var x :| 0 <= x < |work| && work[x].mark == Some(m);
    if after != work {
      var i := TargetRow(work, op.target).value;
      if op.Rename? {
        assert after[x].mark == Some(m);
      } else {
        var k := InsertionIndex(RemoveAt(work, i), op.position, true).value;
        MovedRow(work, i, k, x);
      }
    }
  }

  lemma MovedRow(work: seq<Chapter>, i: nat, k: nat, x: nat)
    requires i < |work| && k < |work| && x < |work|
    ensures work[x] in InsertAt(RemoveAt(work, i), k, work[i])
  {
    var after := InsertAt(RemoveAt(work, i), k, work[i]);
    assert MovedTo(i, k, x) < |after| && after[MovedTo(i, k, x)] == work[x];
  }

  lemma {:induction false} EditsKeepMark(rules: Rules, draft: Draft, ops: seq<Op>, number: nat, m: nat)
    requires forall k :: 0 <= k < |ops| ==> ops[k].Rename? || ops[k].Move?
    requires IsMarked(draft.work, m)
    ensures IsMarked(PlanFrom(rules, draft, ops, number).draft.work, m)
    decreases ops
  {
    hide IsMarked, AfterOne;
    if ops != [] {
      EditKeepsMark(rules, draft, ops[0], number, m);
      EditsKeepMark(rules, AfterOne(rules, draft, ops[0], number), ops[1..], number + 1, m);
    }
  }

  /** An attached row that only edits follow got a permanent id. */
  lemma MarkedGotId(w: Write, first: nat, m: nat)
    requires Happened(w) && OnlyEdits(w, first) && HasRecipes(w.receipt.steps, first) && first <= |w.ops|
    requires IsMarked(PlanOf(w, first).draft.work, m)
    ensures m < |w.results| == |w.ops| && w.results[m].chapterId.Some?
  {
    hide ApplyOutcome, PlanFrom, PatchConfirmed, IsMarked;
    WriteReports(w);
    forall k | first <= k < |w.ops| ensures w.ops[k].Rename? || w.ops[k].Move? {
      RecipesNeedSuccess(w.retitle, NamesOf(w), w.cloud.before.value.chapters, w.ops, w.results, k);
    }
    EditsKeepMark(RulesOf(w), PlanOf(w, first).draft, w.ops[first..], first, m);
    PlanContinues(w, first);
    WholePlan(w);
    MarkedResult(w, m);
  }

  lemma MarkedResult(w: Write, m: nat)
    requires Happened(w) && IsMarked(PlanOf(w, |w.ops|).draft.work, m)
    ensures m < |w.results| == |w.ops| && w.results[m].chapterId.Some?
  {
    hide ApplyOutcome, PatchConfirmed;
    WholePlan(w);
    var desired := PlanOf(w, |w.ops|).draft.work;
    var i :| 0 <= i < |desired| && desired[i].mark == Some(m);
    AttachedIsConfirmed(w);
    PatchSizes(w.retitle, w.cloud.before.value, w.ops, w.cloud.reply.value, w.results);
    MarkedRow(w.retitle, w.cloud.before.value, w.ops, w.cloud.reply.value, w.results, i);
  }

  /** An id of the snapshot is never a staging id of an attach that got a permanent one. */
  lemma OldIdsStay(w: Write, id: string)
    requires Happened(w)
    requires ValidRead(w.cloud.before) && id in Ids(w.cloud.before.value.chapters)
    ensures Image(NamesOf(w), id) == id
  {
    hide ApplyOutcome, PatchConfirmed;
    WriteReports(w);
    var names := NamesOf(w);
    if id in names {
      var k :| 0 <= k < |w.ops| && w.ops[k].Attach? && w.ops[k].fileId == id
        && w.results[k].chapterId == Some(names[id]);
      IdsComeFromReply(w, k);
      AttachedIdsAreNew(w.retitle, w.cloud.before.value, w.ops, w.cloud.reply.value, w.results, k);
    }
  }

  lemma NamesArePermanent(w: Write, first: nat, i: nat)
    requires Happened(w) && Unrepeated(w) && OnlyEdits(w, first) && HasRecipes(w.receipt.steps, first)
      && first <= |w.ops|
    requires i < |PlanOf(w, first).draft.work|
    ensures var c := PlanOf(w, first).draft.work[i]; PermanentId(w.results, c) == Image(NamesOf(w), c.id)
  {
    hide ApplyOutcome, PlanFrom, Unrepeated, OnlyEdits, HasRecipes, NamesOf, PatchConfirmed;
    WriteReports(w);
    var c := PlanOf(w, first).draft.work[i];
    PlanRows(w.retitle, w.cloud.before.value, w.ops[..first], i);
    if c.mark.Some? {
      MarkedGotId(w, first, c.mark.value);
      ConfirmedName(w, c.mark.value);
    } else {
      OldIdsStay(w, c.id);
    }
  }

  lemma EditsDoNotCross(w: Write, first: nat)
    requires Happened(w)
    ensures OnlyEdits(w, first) ==> NoCrossTalk(w, first)
  {
    hide ApplyOutcome;
  }

  lemma TailIndices(w: Write, indices: seq<nat>, first: nat)
    requires Happened(w) && IsTail(indices, first, |w.receipt.steps|)
    ensures |w.receipt.steps| == |w.ops| && forall i :: i in indices ==> i < |w.receipt.steps|
  {
    hide ApplyOutcome;
    WriteReports(w);
  }

  lemma ChangedIsRefused(w: Write, indices: seq<nat>, later: UndoCloud)
    requires Happened(w) && !StillMatches(w, later.before)
    requires forall i :: i in indices ==> i < |w.receipt.steps|
    ensures UndoResult(w.session, w.target, w.receipt, indices, later).UndoRefused?
  {
    hide ApplyOutcome;
  }
}
