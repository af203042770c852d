/** When a write or an undo counts as confirmed, in terms of the polls that the read-back meets. */
module CloudConfirms {
  import opened Lists
  import opened Planner
  import opened UndoSteps
  import opened CloudContent
  import opened CloudWrite
  import opened CloudLaws

  // ---- Lists ----

  /** A row the app does not work with: it has no id, a negative duration, or its processing failed. */
  ghost predicate BadRow(c: Chapter) {
    c.id == "" || c.seconds < 0.0 || c.transcoding == Broken || c.mark.Some?
  }

  /** A list with a bad row, or with one id twice. */
  ghost predicate BadList(cs: seq<Chapter>) {
    || (exists i :: 0 <= i < |cs| && BadRow(cs[i]))
    || (exists i, j :: 0 <= i < j < |cs| && cs[i].id == cs[j].id)
  }

  /** A snapshot that could not be read, or holds a bad list or negative seconds. */
  ghost predicate Unusable(r: Read) {
    r.None? || BadList(r.value.chapters) || r.value.secondsRemaining < 0.0 || r.value.maxSeconds < 0.0
  }

  lemma BadListIff(cs: seq<Chapter>)
    ensures BadList(cs) <==> !ValidChapters(cs)
  {
    assert forall i :: 0 <= i < |cs| ==> (BadRow(cs[i]) <==> !ValidChapter(cs[i]));
  }

  lemma UnusableIff(r: Read)
    ensures Unusable(r) <==> !ValidRead(r)
  {
    hide BadList, ValidChapters;
    if r.Some? { BadListIff(r.value.chapters); }
  }

  /** The chapter shows the row; while it is processed its file and duration may still differ. */
  ghost predicate ShowsRow(c: Chapter, row: Row, processed: bool) {
    && c.id == row.id && c.title == row.title && c.kind == row.kind
    && (processed || (c.file == row.file && c.seconds == row.seconds))
  }

  ghost predicate ShowsRows(cs: seq<Chapter>, rows: seq<Row>, loose: set<string>) {
    |cs| == |rows| && forall i :: 0 <= i < |cs| ==> ShowsRow(cs[i], rows[i], cs[i].id in loose)
  }

  lemma ShowsIff(cs: seq<Chapter>, rows: seq<Row>, loose: set<string>)
    ensures ShowsRows(cs, rows, loose) <==> Matches(Writable(cs), rows, loose)
  {
    if |cs| == |rows| {
      assert forall i :: 0 <= i < |cs| ==>
        (ShowsRow(cs[i], rows[i], cs[i].id in loose) <==> RowMatches(loose, Writable(cs)[i], rows[i]));
    }
  }

  // ---- The read-back ----

  /** Poll `i` is within the attempts, shows the rows, and every poll before it was readable and did not. */
  ghost predicate FirstToShow(polls: seq<Read>, rows: seq<Row>, loose: set<string>, i: int) {
    && 0 <= i < 40 && i < |polls| && !Unusable(polls[i]) && ShowsRows(polls[i].value.chapters, rows, loose)
    && forall j :: 0 <= j < i ==> !Unusable(polls[j]) && !ShowsRows(polls[j].value.chapters, rows, loose)
  }

  lemma FirstToShowIff(polls: seq<Read>, rows: seq<Row>, loose: set<string>, i: int)
    ensures FirstToShow(polls, rows, loose, i)
            <==> (&& 0 <= i < 40 && i < |polls|
                  && ValidRead(polls[i]) && Matches(Writable(polls[i].value.chapters), rows, loose)
                  && forall j :: 0 <= j < i ==>
                       ValidRead(polls[j]) && !Matches(Writable(polls[j].value.chapters), rows, loose))
  {
    hide Unusable, ValidRead, ShowsRows, Matches;
    forall j | 0 <= j <= i && j < |polls|
      ensures Unusable(polls[j]) <==> !ValidRead(polls[j])
      ensures ValidRead(polls[j]) ==> polls[j].Some? && (ShowsRows(polls[j].value.chapters, rows, loose)
                                                         <==> Matches(Writable(polls[j].value.chapters), rows, loose))
    {
      UnusableIff(polls[j]);
      UsableIsThere(polls[j]);
      if polls[j].Some? { ShowsIff(polls[j].value.chapters, rows, loose); }
    }
    assert 0 <= i < |polls| && Unusable(polls[i]) ==> !ValidRead(polls[i]);
  }

  lemma UsableIsThere(r: Read)
    ensures !Unusable(r) || ValidRead(r) ==> r.Some?
  {
  }

  ghost predicate EverShown(polls: seq<Read>, rows: seq<Row>, loose: set<string>) {
    exists i :: FirstToShow(polls, rows, loose, i)
  }

  lemma {:induction false} ReadBackFrom(polls: seq<Read>, rows: seq<Row>, loose: set<string>, attempts: nat, i: int)
    requires 0 <= i < |polls| && i < attempts
    requires ValidRead(polls[i]) && Matches(Writable(polls[i].value.chapters), rows, loose)
    requires forall j :: 0 <= j < i ==> ValidRead(polls[j]) && !Matches(Writable(polls[j].value.chapters), rows, loose)
    ensures ReadBack(polls, rows, loose, attempts) == polls[i]
    decreases i
  {
    hide ValidRead, Matches;
    if i > 0 { ReadBackFrom(polls[1..], rows, loose, attempts - 1, i - 1); }
  }

  lemma {:induction false} ReadBackFound(polls: seq<Read>, rows: seq<Row>, loose: set<string>, attempts: nat)
    returns (i: nat)
    requires ReadBack(polls, rows, loose, attempts).Some?
    ensures i < |polls| && i < attempts && ReadBack(polls, rows, loose, attempts) == polls[i]
    ensures ValidRead(polls[i]) && Matches(Writable(polls[i].value.chapters), rows, loose)
    ensures forall j :: 0 <= j < i ==> ValidRead(polls[j]) && !Matches(Writable(polls[j].value.chapters), rows, loose)
    decreases attempts
  {
    hide ValidRead, Matches;
    if Confirms(polls[0], rows, loose) {
      i := 0;
    } else {
      var k := ReadBackFound(polls[1..], rows, loose, attempts - 1);
      i := k + 1;
      assert forall j :: 0 < j < i ==> polls[j] == polls[1..][j - 1];
    }
  }

  /** The read-back ends with the first of at most forty polls that shows the list, unless an unreadable one comes
      first. */
  lemma {:induction false} ReadBackIff(polls: seq<Read>, rows: seq<Row>, loose: set<string>)
    ensures ReadBack(polls, rows, loose, READBACK_ATTEMPTS).Some? <==> EverShown(polls, rows, loose)
    ensures forall i :: FirstToShow(polls, rows, loose, i) ==>
      ReadBack(polls, rows, loose, READBACK_ATTEMPTS) == polls[i]
  {
    hide ReadBack, Matches, ValidRead, Unusable, ShowsRows;
    forall i | FirstToShow(polls, rows, loose, i)
      ensures ReadBack(polls, rows, loose, READBACK_ATTEMPTS) == polls[i] && polls[i].Some?
    {
      FirstToShowIff(polls, rows, loose, i);
      ReadBackFrom(polls, rows, loose, READBACK_ATTEMPTS, i);
      UsableIsThere(polls[i]);
    }
    if ReadBack(polls, rows, loose, READBACK_ATTEMPTS).Some? {
      var i := ReadBackFound(polls, rows, loose, READBACK_ATTEMPTS);
      FirstToShowIff(polls, rows, loose, i);
      assert FirstToShow(polls, rows, loose, i);
    }
  }

  /** A chapter of the snapshot is still being processed. */
  ghost predicate IsBusy(s: Snapshot, id: string) {
    exists i :: 0 <= i < |s.chapters| && s.chapters[i].id == id && s.chapters[i].transcoding == Busy
  }

  lemma BusyIds(s: Snapshot, id: string)
    ensures id in ProcessingIds(s.chapters) <==> IsBusy(s, id)
  {
  }

  // ---- Undo ----

  /** The ids whose file and duration may still change while an undo is confirmed. */
  ghost predicate UndoLoose(receipt: UndoReceipt, s: Snapshot, loose: set<string>) {
    forall id :: id in loose <==> id in receipt.processing || IsBusy(s, id)
  }

  /** An undo that sent a list is confirmed if and only if the PATCH was accepted and the read-back shows that list; and
      it sends one only if that changes what the snapshot shows. */
  lemma UndoConfirmedIff(session: Session, target: string, receipt: UndoReceipt, indices: seq<nat>, cloud: UndoCloud)
    returns (loose: set<string>)
    requires forall i :: i in indices ==> i < |receipt.steps|
    requires UndoResult(session, target, receipt, indices, cloud).UndoPatched?
    ensures cloud.before.Some? && UndoLoose(receipt, cloud.before.value, loose)
    ensures var r := UndoResult(session, target, receipt, indices, cloud);
      && Writable(r.list) != Writable(cloud.before.value.chapters)
      && (r.confirmed <==> cloud.accepted && EverShown(cloud.polls, Writable(r.list), loose))
  {
    hide ApplySteps, Matches, ReadBack, EverShown;
    var s := cloud.before.value;
    loose := receipt.processing + ProcessingIds(s.chapters);
    forall id ensures id in loose <==> id in receipt.processing || IsBusy(s, id) { BusyIds(s, id); }
    ReadBackIff(cloud.polls, Writable(UndoResult(session, target, receipt, indices, cloud).list), loose);
  }

  // ---- Writing ----

  ghost predicate HasUploads(planned: seq<Chapter>) {
    exists i :: 0 <= i < |planned| && planned[i].mark.Some?
  }

  /** The reply shows every planned row at its place: a kept one as it is, busy chapters of the snapshot apart, and an
      attached one as a file with its title, under an id that is new to the Tonie. */
  ghost predicate Acknowledges(reply: seq<Chapter>, s: Snapshot, planned: seq<Chapter>) {
    && !BadList(reply) && |reply| == |planned|
    && forall i :: 0 <= i < |planned| ==>
         if planned[i].mark.Some? then
           && reply[i].title == planned[i].title && reply[i].kind == "file"
           && forall j :: 0 <= j < |s.chapters| ==> s.chapters[j].id != reply[i].id
         else ShowsRow(reply[i], RowOf(planned[i]), IsBusy(s, reply[i].id))
  }

  lemma AcknowledgesIff(reply: seq<Chapter>, s: Snapshot, planned: seq<Chapter>)
    ensures Acknowledges(reply, s, planned) <==> Confirmed(reply, s.chapters, planned, ProcessingIds(s.chapters))
  {
    hide BadList, ValidChapters, IsBusy, ProcessingIds;
    BadListIff(reply);
    if |reply| == |planned| {
      forall i | 0 <= i < |planned|
        ensures reply[i].id !in Ids(s.chapters)
                <==> forall j :: 0 <= j < |s.chapters| ==> s.chapters[j].id != reply[i].id
        ensures reply[i].id in ProcessingIds(s.chapters) <==> IsBusy(s, reply[i].id)
      {
        BusyIds(s, reply[i].id);
      }
    }
  }

  /** The PATCH went out and the cloud took it: the plan changes the list, and if there are uploads in it, the reply
      acknowledges them. */
  ghost predicate Patched(retitle: TitleRule, ops: seq<Op>, cloud: Cloud)
    requires ValidStart(cloud.before)
  {
    var s := cloud.before.value;
    var planned := SnapshotPlan(retitle, s, ops).draft.work;
    && Writable(planned) != Writable(s.chapters) && cloud.reply.Some?
    && (HasUploads(planned) ==> Acknowledges(cloud.reply.value, s, planned))
  }

  lemma PatchedIff(retitle: TitleRule, ops: seq<Op>, cloud: Cloud)
    requires ValidStart(cloud.before)
    ensures var s := cloud.before.value;
      var planned := SnapshotPlan(retitle, s, ops).draft.work;
      && (HasUploads(planned) <==> AnyAttached(planned))
      && (Patched(retitle, ops, cloud) <==> (
        && Writable(planned) != Writable(s.chapters) && cloud.reply.Some?
        && (AnyAttached(planned) ==> Confirmed(cloud.reply.value, s.chapters, planned, ProcessingIds(s.chapters)))))
  {
    hide ValidChapters, SnapshotPlan, Acknowledges, Confirmed;
    if cloud.reply.Some? {
      AcknowledgesIff(cloud.reply.value, cloud.before.value,
                      SnapshotPlan(retitle, cloud.before.value, ops).draft.work);
    }
  }

  /** The list that the read-back waits for: what was sent, under the permanent ids of the reply. */
  ghost function Awaited(retitle: TitleRule, ops: seq<Op>, cloud: Cloud): seq<Chapter>
    requires ValidStart(cloud.before) && Patched(retitle, ops, cloud)
  {
    var planned := SnapshotPlan(retitle, cloud.before.value, ops).draft.work;
    if HasUploads(planned) then cloud.reply.value else planned
  }

  /** The ids whose file and duration may still change while a write is confirmed. */
  ghost predicate WriteLoose(s: Snapshot, results: seq<OpResult>, loose: set<string>) {
    forall id :: id in loose
      <==> IsBusy(s, id) || exists k :: 0 <= k < |results| && results[k].chapterId == Some(id)
  }

  ghost predicate ChangesNothing(retitle: TitleRule, s: Snapshot, ops: seq<Op>) {
    Writable(SnapshotPlan(retitle, s, ops).draft.work) == Writable(s.chapters)
  }

  /** One result per op, with the planner's error; an id only for an op whose row the reply confirmed, at its place. */
  ghost predicate ReportsPlan(retitle: TitleRule, ops: seq<Op>, cloud: Cloud, results: seq<OpResult>)
    requires ValidStart(cloud.before)
  {
    var plan := SnapshotPlan(retitle, cloud.before.value, ops);
    var planned := plan.draft.work;
    && |results| == |ops|
    && (forall k :: 0 <= k < |ops| ==> results[k].error == plan.errors[k])
    && if Patched(retitle, ops, cloud) && HasUploads(planned) then
         && |cloud.reply.value| == |planned|
         && forall k :: 0 <= k < |ops| ==> GotId(planned, cloud.reply.value, k, results[k].chapterId)
       else forall k :: 0 <= k < |ops| ==> results[k].chapterId.None?
  }

  ghost predicate GotId(planned: seq<Chapter>, reply: seq<Chapter>, k: nat, id: Option<string>)
    requires |planned| == |reply|
  {
    if id.Some? then exists i :: 0 <= i < |planned| && planned[i].mark == Some(k) && reply[i].id == id.value
    else forall i :: 0 <= i < |planned| ==> planned[i].mark != Some(k)
  }

  /** What became of a write whose PATCH was taken, by its read-back. */
  ghost predicate Settled(session: Session, target: string, retitle: TitleRule, ops: seq<Op>, cloud: Cloud,
                          results: seq<OpResult>, loose: set<string>, r: WriteOutcome)
    requires ValidStart(cloud.before) && Patched(retitle, ops, cloud) && |results| == |ops|
  {
    var rows := Writable(Awaited(retitle, ops, cloud));
    var steps := RecordFrom(retitle, AssignedIds(ops, results), cloud.before.value.chapters, ops, results);
    if !EverShown(cloud.polls, rows, loose) then
      && r.Unconfirmed? && r.results == results
      && r.accepted == if HasUploads(SnapshotPlan(retitle, cloud.before.value, ops).draft.work)
                       then Some(cloud.reply.value) else None
    else if steps.Failure? then r.Refused?
    else
      && r.Written? && r.results == results
      && r.receipt.owner == session && r.receipt.target == target
      && r.receipt.processing == loose && r.receipt.steps == steps.value
      && exists i :: FirstToShow(cloud.polls, rows, loose, i)
           && r.receipt.expected == Writable(cloud.polls[i].value.chapters)
  }

  /** What `apply` reports: a snapshot it cannot read, or a PATCH that was not taken, is refused; a plan that changes
      nothing is unchanged; and a PATCH that was taken is confirmed if and only if the polls come to show it. */
  lemma WriteConfirmedIff(session: Session, target: string, retitle: TitleRule, ops: seq<Op>, cloud: Cloud)
    returns (results: seq<OpResult>, loose: set<string>)
    ensures |results| == |ops|
    ensures ValidStart(cloud.before) ==> ReportsPlan(retitle, ops, cloud, results)
    ensures var r := ApplyOutcome(session, target, retitle, ops, cloud);
      if !ValidStart(cloud.before) then r.Refused?
      else if Patched(retitle, ops, cloud) then
        WriteLoose(cloud.before.value, results, loose)
        && Settled(session, target, retitle, ops, cloud, results, loose, r)
      else if ChangesNothing(retitle, cloud.before.value, ops) then r == Unchanged(results)
      else r.Refused?
  {
    hide SnapshotPlan, Matches, ReadBack, EverShown, Confirmed, RecordFrom, WithIds, ValidChapters, Patched, Awaited,
         ReportsPlan, Settled, ApplyOutcome, ReportOf, ChangesNothing;
    results, loose := seq(|ops|, k => OpResult(None, None)), {};
    if ValidStart(cloud.before) {
      var s := cloud.before.value;
      var plan := SnapshotPlan(retitle, s, ops);
      results, loose := ResultsOf(plan.errors), ProcessingIds(s.chapters);
      if Patched(retitle, ops, cloud) {
        results := ReportOf(retitle, ops, cloud);
        loose := loose + NewIds(results);
        LooseIds(s, results, loose);
        PatchSettles(session, target, retitle, ops, cloud, results, loose);
      } else {
        NoPatch(session, target, retitle, ops, cloud);
      }
      Reported(retitle, ops, cloud, results);
    } else {
      Unreadable(session, target, retitle, ops, cloud);
    }
  }

  lemma Unreadable(session: Session, target: string, retitle: TitleRule, ops: seq<Op>, cloud: Cloud)
    requires !ValidStart(cloud.before)
    ensures ApplyOutcome(session, target, retitle, ops, cloud).Refused?
  {
    hide ValidStart;
  }

  lemma NoPatch(session: Session, target: string, retitle: TitleRule, ops: seq<Op>, cloud: Cloud)
    requires ValidStart(cloud.before) && !Patched(retitle, ops, cloud)
    ensures ApplyOutcome(session, target, retitle, ops, cloud)
            == if ChangesNothing(retitle, cloud.before.value, ops)
               then Unchanged(ResultsOf(SnapshotPlan(retitle, cloud.before.value, ops).errors)) else Refused
  {
    hide ValidStart, SnapshotPlan, Confirmed, RecordFrom, ReadBack, Patched;
    PatchedIff(retitle, ops, cloud);
  }

  /** The results under the permanent ids of the reply. */
  ghost function FilledIn(retitle: TitleRule, ops: seq<Op>, cloud: Cloud): (r: seq<OpResult>)
    requires ValidStart(cloud.before) && Patched(retitle, ops, cloud)
    requires AnyAttached(SnapshotPlan(retitle, cloud.before.value, ops).draft.work)
    ensures |r| == |ops|
  {
    var plan := SnapshotPlan(retitle, cloud.before.value, ops);
    MarksAreInRange(retitle, cloud.before.value, ops);
    PatchedIff(retitle, ops, cloud);
    WithIds(ResultsOf(plan.errors), plan.draft.work, cloud.reply.value, |plan.draft.work|)
  }

  /** The results of a write whose PATCH was taken. */
  ghost function ReportOf(retitle: TitleRule, ops: seq<Op>, cloud: Cloud): (r: seq<OpResult>)
    requires ValidStart(cloud.before) && Patched(retitle, ops, cloud)
    ensures |r| == |ops|
  {
    var plan := SnapshotPlan(retitle, cloud.before.value, ops);
    if AnyAttached(plan.draft.work) then FilledIn(retitle, ops, cloud) else ResultsOf(plan.errors)
  }

  lemma PatchedOutcome(session: Session, target: string, retitle: TitleRule, ops: seq<Op>, cloud: Cloud)
    requires ValidStart(cloud.before) && Patched(retitle, ops, cloud)
    ensures var results := ReportOf(retitle, ops, cloud);
      var loose := ProcessingIds(cloud.before.value.chapters) + NewIds(results);
      ApplyOutcome(session, target, retitle, ops, cloud)
      == AfterPatch(session, target, retitle, cloud.before.value.chapters, ops, results, Awaited(retitle, ops, cloud),
                    if AnyAttached(SnapshotPlan(retitle, cloud.before.value, ops).draft.work)
                    then Some(cloud.reply.value) else None, loose, cloud.polls)
  {
    hide ValidChapters, SnapshotPlan, Confirmed, RecordFrom, ReadBack, WithIds, AfterPatch;
    var plan := SnapshotPlan(retitle, cloud.before.value, ops);
    PatchedIff(retitle, ops, cloud);
    if !AnyAttached(plan.draft.work) {
      assert NewIds(ResultsOf(plan.errors)) == {};
      assert ProcessingIds(cloud.before.value.chapters) + {} == ProcessingIds(cloud.before.value.chapters);
    }
  }

  lemma PatchSettles(session: Session, target: string, retitle: TitleRule, ops: seq<Op>, cloud: Cloud,
                     results: seq<OpResult>, loose: set<string>)
    requires ValidStart(cloud.before) && Patched(retitle, ops, cloud) && results == ReportOf(retitle, ops, cloud)
    requires loose == ProcessingIds(cloud.before.value.chapters) + NewIds(results)
    ensures Settled(session, target, retitle, ops, cloud, results, loose,
                    ApplyOutcome(session, target, retitle, ops, cloud))
  {
    hide ValidStart, Patched, SnapshotPlan, Awaited, ReportOf, RecordFrom, ReadBack, FirstToShow, ApplyOutcome;
    PatchedIff(retitle, ops, cloud);
    PatchedOutcome(session, target, retitle, ops, cloud);
    ReadBackIff(cloud.polls, Writable(Awaited(retitle, ops, cloud)), loose);
  }

  lemma Reported(retitle: TitleRule, ops: seq<Op>, cloud: Cloud, results: seq<OpResult>)
    requires ValidStart(cloud.before)
    requires results == if Patched(retitle, ops, cloud) then ReportOf(retitle, ops, cloud)
                        else ResultsOf(SnapshotPlan(retitle, cloud.before.value, ops).errors)
    ensures ReportsPlan(retitle, ops, cloud, results)
  {
    hide ValidChapters, SnapshotPlan, WithIds;
    var plan := SnapshotPlan(retitle, cloud.before.value, ops);
    PatchedIff(retitle, ops, cloud);
    if Patched(retitle, ops, cloud) && AnyAttached(plan.draft.work) {
      MarksAreInRange(retitle, cloud.before.value, ops);
      forall k | 0 <= k < |ops| ensures GotId(plan.draft.work, cloud.reply.value, k, results[k].chapterId) {
        IdsFilled(ResultsOf(plan.errors), plan.draft.work, cloud.reply.value, |plan.draft.work|, k);
      }
    }
  }

  lemma LooseIds(s: Snapshot, results: seq<OpResult>, loose: set<string>)
    requires loose == ProcessingIds(s.chapters) + NewIds(results)
    ensures WriteLoose(s, results, loose)
  {
    hide IsBusy;
    forall id
      ensures id in loose <==> IsBusy(s, id) || exists k :: 0 <= k < |results| && results[k].chapterId == Some(id)
    {
      BusyIds(s, id);
    }
  }

  // ---- What stops a write and an undo ----

  /** Nothing is written or undone on a snapshot the app cannot work with, in particular while the processing of any
      chapter of the Tonie has failed. */
  lemma UnusableStops(session: Session, target: string, retitle: TitleRule, ops: seq<Op>, cloud: Cloud,
                      receipt: UndoReceipt, indices: seq<nat>, later: UndoCloud)
    requires forall i :: i in indices ==> i < |receipt.steps|
    ensures Unusable(cloud.before) || cloud.before.value.maxChapters < 0.0 ==>
      ApplyOutcome(session, target, retitle, ops, cloud).Refused?
    ensures Unusable(later.before) ==> UndoResult(session, target, receipt, indices, later).UndoRefused?
  {
    hide Unusable, ValidRead, Matches;
    UnusableIff(cloud.before);
    UnusableIff(later.before);
  }

  lemma {:induction false} ChosenAll(steps: seq<Option<Step>>, indices: seq<nat>)
    requires forall i :: i in indices ==> i < |steps|
    ensures |Chosen(steps, indices)| == |indices| <==> forall i :: i in indices ==> steps[i].Some?
  {
    if indices != [] {
      assert indices[0] in indices && forall i :: i in indices <==> i == indices[0] || i in indices[1..];
      ChosenAll(steps, indices[1..]);
    }
  }

  /** Why an undo is refused before anything is sent: it is another account or Tonie; the snapshot is unusable or no
      longer matches; an action has no recipe; or a recipe does not fit the list. */
  lemma {:induction false} UndoRefusedFor(session: Session, target: string, receipt: UndoReceipt, indices: seq<nat>,
                                          cloud: UndoCloud)
    requires forall i :: i in indices ==> i < |receipt.steps|
    ensures var r := UndoResult(session, target, receipt, indices, cloud);
      if receipt.owner != session || receipt.target != target then r == UndoRefused(AccountChanged)
      else if Unusable(cloud.before) || !ShowsRows(cloud.before.value.chapters, receipt.expected, receipt.processing)
      then r == UndoRefused(InventoryChanged)
      else if indices == [] || exists i :: i in indices && receipt.steps[i].None? then r == UndoRefused(NotAvailable)
      else r.UndoRefused? <==> ApplySteps(cloud.before.value.chapters, Chosen(receipt.steps, indices)).Failure?
  {
    hide BadList, ShowsRows, ValidChapters, Matches, ApplySteps, ReadBack;
    UnusableIff(cloud.before);
    if cloud.before.Some? { ShowsIff(cloud.before.value.chapters, receipt.expected, receipt.processing); }
    ChosenAll(receipt.steps, indices);
  }

  /** Exactly one row has the id. */
  ghost predicate Once(work: seq<Chapter>, id: string) {
    exists i :: IsOnly(work, id, i)
  }

  /** The chapter of a recipe is row `i`, and the anchor is among the other chapters exactly once. */
  ghost predicate AnchorBeside(work: seq<Chapter>, step: Step, i: int)
    requires step.MoveBack? && !step.to.AtStart?
  {
    IsOnly(work, step.chapterId, i) && Once(work[..i] + work[i + 1..], step.to.id)
  }

  ghost predicate AnchorThere(work: seq<Chapter>, step: Step) {
    step.MoveBack? && !step.to.AtStart? ==> exists i :: AnchorBeside(work, step, i)
  }

  /** A recipe fits a list exactly when its chapter and its anchor are there; it is refused for the first that is
      not. */
  lemma StepRefusedFor(work: seq<Chapter>, step: Step)
    ensures var r := ApplyStep(work, step);
      if !Once(work, step.chapterId) then r == Failure(InventoryChanged)
      else if !AnchorThere(work, step) then r == Failure(PositionChanged)
      else r.Success?
  {
    if Once(work, step.chapterId) {
      var i :| IsOnly(work, step.chapterId, i);
      assert Find(work, step.chapterId) == Some(i);
      var rest := RemoveAt(work, i);
      assert rest == work[..i] + work[i + 1..];
      if step.MoveBack? && !step.to.AtStart? {
        assert Find(rest, step.to.id).Some? ==> IsOnly(rest, step.to.id, Find(rest, step.to.id).value);
        assert AnchorThere(work, step) <==> AnchorBeside(work, step, i);
      }
    }
  }
}
