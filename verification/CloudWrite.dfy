/** The guarded write and its guarded inverse (app/tonies_api.py). The cloud is adversarial: every read,
    reply and read-back is a parameter that may be anything. */
module CloudWrite {
  import opened Lists
  import opened Planner
  import opened PlannerLaws
  import opened UndoSteps
  import opened CloudContent

  type Session = nat

  datatype UndoReceipt = UndoReceipt(
    owner: Session, target: string, expected: seq<Row>, steps: seq<Option<Step>>, processing: set<string>)

  /** Everything the cloud says during one `apply`: the snapshot, the PATCH reply (None if it failed), and
      the polls of the read-back, as many as the deadline allows. */
  datatype Cloud = Cloud(before: Read, reply: Option<seq<Chapter>>, polls: seq<Read>)

  datatype WriteOutcome =
    | Unchanged(results: seq<OpResult>)
    | Written(results: seq<OpResult>, receipt: UndoReceipt)
    | Unconfirmed(results: seq<OpResult>, accepted: Option<seq<Chapter>>)
    | Refused

  function Min(a: real, b: real): real {
    if a <= b then a else b
  }

  function Capacity(s: Snapshot): Limit {
    Finite(Min(s.maxSeconds, s.secondsRemaining + TotalSeconds(s.chapters)))
  }

  /** The plan of `ops` on a snapshot, within the Tonie's limits. */
  function SnapshotPlan(retitle: TitleRule, s: Snapshot, ops: seq<Op>): (p: Plan)
    ensures |p.errors| == |ops|
  {
    PlanOps(retitle, s.chapters, ops, Capacity(s), Finite(s.maxChapters))
  }

  function ResultsOf(errors: seq<Option<OpError>>): (r: seq<OpResult>)
    ensures |r| == |errors|
    ensures forall k :: 0 <= k < |errors| ==> r[k] == OpResult(errors[k], None)
  {
    seq(|errors|, k requires 0 <= k < |errors| => OpResult(errors[k], None))
  }

  predicate AnyAttached(desired: seq<Chapter>) {
    exists i :: 0 <= i < |desired| && desired[i].mark.Some?
  }

  // ---- Mapping attachments to permanent ids ----

  /** An attached row in the PATCH reply: a new id, under the requested title. */
  predicate NewRow(original: set<string>, want: Chapter, got: Chapter) {
    got.id !in original && got.title == want.title && got.kind == "file"
  }

  ghost predicate Confirmed(reply: seq<Chapter>, before: seq<Chapter>, desired: seq<Chapter>, processing: set<string>) {
    && ValidChapters(reply) && |reply| == |desired|
    && forall i :: 0 <= i < |desired| ==>
         if desired[i].mark.Some? then NewRow(Ids(before), desired[i], reply[i])
         else RowMatches(processing, RowOf(reply[i]), RowOf(desired[i]))
  }

  /** `results` with the permanent ids of the rows attached among the first `n`. */
  function WithIds(results: seq<OpResult>, desired: seq<Chapter>, reply: seq<Chapter>, n: nat): (r: seq<OpResult>)
    requires n <= |desired| && n <= |reply|
    requires forall i :: 0 <= i < n && desired[i].mark.Some? ==> desired[i].mark.value < |results|
    ensures |r| == |results|
    ensures forall k :: 0 <= k < |results| ==> r[k].error == results[k].error
  {
    if n == 0 then results
    else
      var r := WithIds(results, desired, reply, n - 1);
      if desired[n - 1].mark.None? then r
      else r[desired[n - 1].mark.value := r[desired[n - 1].mark.value].(chapterId := Some(reply[n - 1].id))]
  }

  /** `_confirm_attachments`: None where it raises. */
  method ConfirmAttachments(reply: seq<Chapter>, before: seq<Chapter>, desired: seq<Chapter>,
                            processing: set<string>, results: seq<OpResult>)
    returns (r: Option<seq<OpResult>>)
    requires forall i :: 0 <= i < |desired| && desired[i].mark.Some? ==> desired[i].mark.value < |results|
    ensures r.Some? <==> Confirmed(reply, before, desired, processing)
    ensures r.Some? ==> r.value == WithIds(results, desired, reply, |desired|)
  {
    var valid := ValidatedChapters(reply);
    if !valid || |reply| != |desired| {
      return None;
    }
    var filled := results;
    var keptReturned: seq<Row>, keptDesired: seq<Row> := [], [];
    for i := 0 to |desired|
      invariant forall k :: 0 <= k < i && desired[k].mark.Some? ==> NewRow(Ids(before), desired[k], reply[k])
      invariant filled == WithIds(results, desired, reply, i)
      invariant |keptReturned| == |keptDesired|
      invariant Matches(keptReturned, keptDesired, processing)
        <==> forall k :: 0 <= k < i && desired[k].mark.None? ==>
          RowMatches(processing, RowOf(reply[k]), RowOf(desired[k]))
    {
      var got, want := reply[i], desired[i];
      if want.mark.Some? {
        if !NewRow(Ids(before), want, got) {
          return None;
        }
        filled := filled[want.mark.value := filled[want.mark.value].(chapterId := Some(got.id))];
      } else {
        MatchesAppend(keptReturned, keptDesired, RowOf(got), RowOf(want), processing);
        keptReturned, keptDesired := keptReturned + [RowOf(got)], keptDesired + [RowOf(want)];
      }
    }
    var same := MatchesChapters(keptReturned, keptDesired, processing);
    if !same {
      return None;
    }
    return Some(filled);
  }

  lemma MatchesAppend(a: seq<Row>, b: seq<Row>, x: Row, y: Row, p: set<string>)
    requires |a| == |b|
    ensures Matches(a + [x], b + [y], p) <==> Matches(a, b, p) && RowMatches(p, x, y)
  {
    if Matches(a + [x], b + [y], p) {
      forall i | 0 <= i < |a| ensures RowMatches(p, a[i], b[i]) {
        assert RowMatches(p, (a + [x])[i], (b + [y])[i]);
      }
      assert RowMatches(p, (a + [x])[|a|], (b + [y])[|a|]);
    }
  }

  // ---- Applying a batch ----

  function NewIds(results: seq<OpResult>): set<string> {
    set k | 0 <= k < |results| && results[k].chapterId.Some? :: results[k].chapterId.value
  }

  /** After an accepted PATCH: read back, then keep the recipes. */
  ghost function AfterPatch(session: Session, target: string, retitle: TitleRule, before: seq<Chapter>, ops: seq<Op>,
                            results: seq<OpResult>, expected: seq<Chapter>, accepted: Option<seq<Chapter>>,
                            processing: set<string>, polls: seq<Read>): WriteOutcome
    requires |ops| == |results|
  {
    match ReadBack(polls, Writable(expected), processing, READBACK_ATTEMPTS)
    case None => Unconfirmed(results, accepted)
    case Some(found) =>
      match RecordFrom(retitle, AssignedIds(ops, results), before, ops, results)
      case Failure(_) => Refused
      case Success(steps) =>
        Written(results, UndoReceipt(session, target, Writable(found.chapters), steps, processing))
  }

  /** What `ToniesAPI.apply` does with whatever the cloud says. */
  ghost function ApplyOutcome(session: Session, target: string, retitle: TitleRule, ops: seq<Op>,
                              cloud: Cloud): (r: WriteOutcome)
    ensures r.Unchanged? || r.Written? ==> |r.results| == |ops|
  {
    if !ValidStart(cloud.before) then Refused
    else
      var chapters := cloud.before.value.chapters;
      var plan := SnapshotPlan(retitle, cloud.before.value, ops);
      var desired, results := plan.draft.work, ResultsOf(plan.errors);
      var processing := ProcessingIds(chapters);
      if Writable(desired) == Writable(chapters) then Unchanged(results)
      else if cloud.reply.None? then Refused
      else if !AnyAttached(desired) then
        AfterPatch(session, target, retitle, chapters, ops, results, desired, None, processing, cloud.polls)
      else if !Confirmed(cloud.reply.value, chapters, desired, processing) then Refused
      else
        MarksAreInRange(retitle, cloud.before.value, ops);
        var filled := WithIds(results, desired, cloud.reply.value, |desired|);
        AfterPatch(session, target, retitle, chapters, ops, filled, cloud.reply.value, Some(cloud.reply.value),
                   processing + NewIds(filled), cloud.polls)
  }

  /** Every `_attach` mark of a plan numbers one of its ops, so `results[mark]` exists. */
  lemma MarksAreInRange(retitle: TitleRule, s: Snapshot, ops: seq<Op>)
    requires ValidChapters(s.chapters)
    ensures DistinctMarks(SnapshotPlan(retitle, s, ops).draft.work, |ops|)
  {
    assert DistinctMarks(s.chapters, 0);
    MarksStayDistinct(BatchRules(retitle, s.chapters, Capacity(s), Finite(s.maxChapters)),
      Draft(s.chapters, {}), ops, 0);
  }

  method FinishPatch(session: Session, target: string, retitle: TitleRule, before: seq<Chapter>, ops: seq<Op>,
                     results: seq<OpResult>, expected: seq<Chapter>, accepted: Option<seq<Chapter>>,
                     processing: set<string>, polls: seq<Read>) returns (r: WriteOutcome)
    requires |ops| == |results|
    ensures r == AfterPatch(session, target, retitle, before, ops, results, expected, accepted, processing, polls)
  {
    var found := Readback(polls, Writable(expected), processing);
    if found.None? {
      return Unconfirmed(results, accepted);
    }
    var steps := InverseSteps(retitle, before, ops, results);
    if steps.Failure? {
      return Refused;
    }
    return Written(results, UndoReceipt(session, target, Writable(found.value.chapters), steps.value, processing));
  }

  /** `ToniesAPI.apply`: one read, one plan, at most one PATCH, one read-back. */
  method Apply(session: Session, target: string, retitle: TitleRule, ops: seq<Op>,
               cloud: Cloud) returns (r: WriteOutcome)
    ensures r == ApplyOutcome(session, target, retitle, ops, cloud)
  {
    var readable := ValidatedRead(cloud.before);
    if !readable || cloud.before.value.maxChapters < 0.0 {
      return Refused;
    }
    var snapshot := cloud.before.value;
    var desired, errors := ApplyOps(retitle, snapshot.chapters, ops, Capacity(snapshot), Finite(snapshot.maxChapters));
    var results := ResultsOf(errors);
    if Writable(desired) == Writable(snapshot.chapters) {
      return Unchanged(results);
    }
    var processing := ProcessingIds(snapshot.chapters);
    if cloud.reply.None? {
      return Refused;
    }
    if !AnyAttached(desired) {
      r := FinishPatch(session, target, retitle, snapshot.chapters, ops, results, desired, None, processing,
        cloud.polls);
      return;
    }
    MarksAreInRange(retitle, snapshot, ops);
    var filled := ConfirmAttachments(cloud.reply.value, snapshot.chapters, desired, processing, results);
    if filled.None? {
      return Refused;
    }
    r := FinishPatch(session, target, retitle, snapshot.chapters, ops, filled.value, cloud.reply.value,
                     Some(cloud.reply.value), processing + NewIds(filled.value), cloud.polls);
  }

  // ---- Undoing a submission ----

  /** The later world an undo meets: a fresh snapshot, whether its PATCH is accepted, and the read-back polls. */
  datatype UndoCloud = UndoCloud(before: Read, accepted: bool, polls: seq<Read>)

  datatype UndoOutcome =
    | UndoRefused(error: UndoError)
    | UndoUnneeded
    | UndoPatched(list: seq<Chapter>, confirmed: bool)

  /** The stored recipes for the undone actions, last action first. */
  function Chosen(steps: seq<Option<Step>>, indices: seq<nat>): (r: seq<Step>)
    requires forall i :: i in indices ==> i < |steps|
    ensures |r| <= |indices|
  {
    if indices == [] then []
    else
      assert indices[0] in indices && forall i :: i in indices[1..] ==> i in indices;
      Chosen(steps, indices[1..]) + (if steps[indices[0]].Some? then [steps[indices[0]].value] else [])
  }

  /** What `ToniesAPI.undo` does: the inverse list is computed from the fresh snapshot, never from a saved one. */
  ghost function UndoResult(session: Session, target: string, receipt: UndoReceipt, indices: seq<nat>,
                            cloud: UndoCloud): UndoOutcome
    requires forall i :: i in indices ==> i < |receipt.steps|
  {
    if receipt.owner != session || receipt.target != target then UndoRefused(AccountChanged)
    else if !ValidRead(cloud.before) then UndoRefused(InventoryChanged)
    else
      var chapters := cloud.before.value.chapters;
      var steps := Chosen(receipt.steps, indices);
      if !Matches(Writable(chapters), receipt.expected, receipt.processing) then UndoRefused(InventoryChanged)
      else if steps == [] || |steps| != |indices| then UndoRefused(NotAvailable)
      else
        match ApplySteps(chapters, steps)
        case Failure(e) => UndoRefused(e)
        case Success(desired) =>
          if Writable(desired) == Writable(chapters) then UndoUnneeded
          else
            UndoPatched(desired, cloud.accepted
              && ReadBack(cloud.polls, Writable(desired), receipt.processing + ProcessingIds(chapters),
                          READBACK_ATTEMPTS).Some?)
  }

  method Undo(session: Session, target: string, receipt: UndoReceipt, indices: seq<nat>, cloud: UndoCloud)
    returns (r: UndoOutcome)
    requires forall i :: i in indices ==> i < |receipt.steps|
    ensures r == UndoResult(session, target, receipt, indices, cloud)
  {
    if receipt.owner != session || receipt.target != target {
      return UndoRefused(AccountChanged);
    }
    var readable := ValidatedRead(cloud.before);
    if !readable {
      return UndoRefused(InventoryChanged);
    }
    var chapters := cloud.before.value.chapters;
    var same := MatchesChapters(Writable(chapters), receipt.expected, receipt.processing);
    if !same {
      return UndoRefused(InventoryChanged);
    }
    var steps := Chosen(receipt.steps, indices);
    if steps == [] || |steps| != |indices| {
      return UndoRefused(NotAvailable);
    }
    var desired := ApplyInverse(chapters, steps);
    if desired.Failure? {
      return UndoRefused(desired.error);
    }
    if Writable(desired.value) == Writable(chapters) {
      return UndoUnneeded;
    }
    if !cloud.accepted {
      return UndoPatched(desired.value, false);
    }
    var found := Readback(cloud.polls, Writable(desired.value), receipt.processing + ProcessingIds(chapters));
    return UndoPatched(desired.value, found.Some?);
  }
}
