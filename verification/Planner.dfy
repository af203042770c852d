/** The batch planner of app/tonies_batch.py: queued edits become one desired chapter list. */
module Planner {
  import opened Lists

  datatype Transcoding = Idle | Busy | Broken

  /** One chapter row. `mark` is the planner's `_attach` key: the number of the op that added the row. */
  datatype Chapter = Chapter(
    id: string, title: string, file: string, seconds: real, kind: string,
    transcoding: Transcoding, mark: Option<nat>)

  datatype Edge = Start | End

  /** A position dict; an absent or empty anchor is "". */
  datatype Position = Position(edge: Option<Edge>, before: string, after: string, index: Option<int>)

  const NOWHERE := Position(None, "", "", None)

  /** How an edit names its chapter: by id, or by row number for older clients. */
  datatype Target = Target(chapterId: string, index: Option<int>, expectIndex: Option<int>)

  datatype Op =
    | Clear
    | Delete(target: Target)
    | Rename(target: Target, title: string)
    | Move(target: Target, position: Position)
    | Attach(fileId: string, title: string, seconds: real, position: Position)
    | Unknown

  datatype OpError =
    | TrackGone | TrackPositionInvalid | TrackPositionStale
    | DropPositionGone | PositionInvalid
    | TitleEmpty | AllocationCollides | TitleNotUnique | ChapterLimit | CapacityExceeded | UnknownAction

  /** A bound that `inverse_steps` lifts to infinity. */
  datatype Limit = Finite(bound: real) | Unbounded {
    predicate Allows(x: real) {
      Unbounded? || x <= bound
    }
  }

  /** `renamed_title`: the new title, or None where the requested title is empty. */
  type TitleRule = (string, string) -> Option<string>

  /** What stays fixed during one batch. */
  datatype Rules = Rules(retitle: TitleRule, capacity: Limit, maxChapters: Limit, existing: set<string>)

  /** What a batch changes: the chapter list and the titles attached so far. */
  datatype Draft = Draft(work: seq<Chapter>, titles: set<string>)

  predicate UniqueIds(cs: seq<Chapter>) {
    forall i, j :: 0 <= i < j < |cs| ==> cs[i].id != cs[j].id
  }

  function Ids(cs: seq<Chapter>): (r: set<string>)
    ensures forall i :: 0 <= i < |cs| ==> cs[i].id in r
  {
    set i | 0 <= i < |cs| :: cs[i].id
  }

  /** The ids and file references a new allocation may not reuse. */
  function ExistingIds(cs: seq<Chapter>): (r: set<string>)
    ensures forall i :: 0 <= i < |cs| ==> cs[i].id in r && cs[i].file in r
  {
    Ids(cs) + set i | 0 <= i < |cs| :: cs[i].file
  }

  function TotalSeconds(cs: seq<Chapter>): real {
    if cs == [] then 0.0 else TotalSeconds(cs[..|cs| - 1]) + cs[|cs| - 1].seconds
  }

  // ---- Finding rows ----

  function Positions(work: seq<Chapter>, id: string): (r: seq<nat>)
    ensures forall k :: k in r <==> 0 <= k < |work| && work[k].id == id
    ensures forall a, b :: 0 <= a < b < |r| ==> r[a] < r[b]
  {
    if work == [] then []
    else
      var n := |work| - 1;
      var r := Positions(work[..n], id);
      assert forall a :: 0 <= a < |r| ==> r[a] in r && r[a] < n;
      if work[n].id == id then r + [n] else r
  }

  /** `_find`: the only row with this id. */
  function Find(work: seq<Chapter>, id: string): (r: Option<nat>)
    ensures r.Some? <==> exists i :: IsOnly(work, id, i)
    ensures forall i :: IsOnly(work, id, i) ==> r == Some(i)
    ensures r.Some? ==> IsOnly(work, id, r.value)
  {
    var p := Positions(work, id);
    assert forall i :: IsOnly(work, id, i) ==> p == [i] by {
      forall i | IsOnly(work, id, i) ensures p == [i] { OnlyPosition(work, id, i); }
    }
    assert |p| == 1 ==> IsOnly(work, id, p[0]) by {
      if |p| == 1 { assert p[0] in p; }
    }
    if |p| == 1 then Some(p[0]) else None
  }

  ghost predicate IsOnly(work: seq<Chapter>, id: string, i: int) {
    && 0 <= i < |work| && work[i].id == id
    && forall j :: 0 <= j < |work| && work[j].id == id ==> j == i
  }

  lemma {:induction false} OnlyPosition(work: seq<Chapter>, id: string, i: int)
    requires IsOnly(work, id, i)
    ensures Positions(work, id) == [i]
  {
    var p := Positions(work, id);
    assert i in p;
    assert |p| >= 2 ==> p[0] < p[1];
    forall k | 0 <= k < |p| ensures p[k] == i {
      assert p[k] in p;
      assert work[p[k]].id == id;
    }
  }

  function TargetRow(work: seq<Chapter>, t: Target): (r: Result<nat, OpError>)
    ensures r.Success? ==> r.value < |work|
    ensures r.Success? && t.chapterId != "" ==> IsOnly(work, t.chapterId, r.value)
    ensures r.Success? && t.chapterId == "" ==> t.index == Some(r.value)
  {
    var found :=
      if t.chapterId != "" then
        var at := Find(work, t.chapterId);
        if at.Some? then Success(at.value) else Failure(TrackGone)
      else if t.index.Some? && 0 <= t.index.value < |work| then Success(t.index.value)
      else Failure(TrackPositionInvalid);
    if found.Success? && t.expectIndex.Some? && t.expectIndex.value != found.value
    then Failure(TrackPositionStale)
    else found
  }

  // ---- Placing rows ----

  function Clamp(index: int, length: nat): (r: nat)
    ensures r <= length
  {
    if index < 0 then 0 else if index > length then length else index
  }

  function FallbackIndex(work: seq<Chapter>, index: Option<int>, strict: bool): (r: Result<nat, OpError>)
    ensures r.Success? ==> r.value <= |work|
  {
    if index.None? then Failure(PositionInvalid)
    else if strict && !(0 <= index.value <= |work|) then Failure(TrackPositionInvalid)
    else Success(Clamp(index.value, |work|))
  }

  /** `_insertion_index`: edges first, then `before`, then `after`; a lost anchor falls back to the index. */
  function InsertionIndex(work: seq<Chapter>, p: Position, strict: bool): (r: Result<nat, OpError>)
    ensures r.Success? ==> r.value <= |work|
  {
    if p == NOWHERE || p.edge == Some(End) then Success(|work|)
    else if p.edge == Some(Start) then Success(0)
    else
      var before := if p.before == "" then None else Find(work, p.before);
      if before.Some? then Success(before.value)
      else if p.before != "" && p.index.None? then Failure(DropPositionGone)
      else
        var after := if p.after == "" then None else Find(work, p.after);
        if after.Some? then Success(after.value + 1)
        else if p.after != "" && p.index.None? then Failure(DropPositionGone)
        else FallbackIndex(work, p.index, strict)
  }

  // ---- One op ----

  function AttachChecks(rules: Rules, draft: Draft, op: Op): (r: Result<nat, OpError>)
    requires op.Attach?
    ensures r.Success? ==> r.value <= |draft.work| && op.fileId != "" && op.title != ""
    ensures r.Success? ==> op.fileId !in rules.existing && op.title !in draft.titles
  {
    if op.fileId == "" || op.fileId in rules.existing then Failure(AllocationCollides)
    else if op.title == "" || op.title in draft.titles then Failure(TitleNotUnique)
    else if !rules.maxChapters.Allows((|draft.work| + 1) as real) then Failure(ChapterLimit)
    else if !CapacityAllows(rules.capacity, TotalSeconds(draft.work) + op.seconds) then Failure(CapacityExceeded)
    else InsertionIndex(draft.work, op.position, false)
  }

  predicate CapacityAllows(capacity: Limit, total: real) {
    capacity.Unbounded? || total <= capacity.bound + 1.0
  }

  function NewChapter(op: Op, number: nat): Chapter
    requires op.Attach?
  {
    Chapter(op.fileId, op.title, op.fileId, op.seconds, "file", Idle, Some(number))
  }

  /** `_apply_one` on a copy of the draft; on failure the copy is dropped. */
  function ApplyOne(rules: Rules, draft: Draft, op: Op, number: nat): Result<Draft, OpError> {
    match op
    case Clear => Success(draft.(work := []))
    case Delete(t) =>
      (match TargetRow(draft.work, t)
       case Failure(e) => Failure(e)
       case Success(i) => Success(draft.(work := RemoveAt(draft.work, i))))
    case Rename(t, title) =>
      (match TargetRow(draft.work, t)
       case Failure(e) => Failure(e)
       case Success(i) =>
         match rules.retitle(draft.work[i].title, title)
         case None => Failure(TitleEmpty)
         case Some(new_) => Success(draft.(work := draft.work[i := draft.work[i].(title := new_)])))
    case Move(t, position) =>
      (match TargetRow(draft.work, t)
       case Failure(e) => Failure(e)
       case Success(i) =>
         var rest := RemoveAt(draft.work, i);
         match InsertionIndex(rest, position, true)
         case Failure(e) => Failure(e)
         case Success(k) => Success(draft.(work := InsertAt(rest, k, draft.work[i]))))
    case Attach(_, title, _, _) =>
      (match AttachChecks(rules, draft, op)
       case Failure(e) => Failure(e)
       case Success(k) =>
         Success(Draft(InsertAt(draft.work, k, NewChapter(op, number)), draft.titles + {title})))
    case Unknown => Failure(UnknownAction)
  }

  /** `_apply_one`: pop and insert on a candidate list. Where it raises, the half-edited candidate is worthless. */
  method ApplyToCandidate(rules: Rules, work: seq<Chapter>, titles: set<string>, op: Op, number: nat)
    returns (candidate: seq<Chapter>, attached: set<string>, error: Option<OpError>)
    ensures error.Some? ==> ApplyOne(rules, Draft(work, titles), op, number) == Failure(error.value)
    ensures error.None? ==> ApplyOne(rules, Draft(work, titles), op, number) == Success(Draft(candidate, attached))
  {
    candidate, attached, error := work, titles, None;
    match op {
      case Clear =>
        candidate := [];
      case Delete(t) =>
        var row := TargetRow(candidate, t);
        if row.Failure? {
          error := Some(row.error);
          return;
        }
        candidate := RemoveAt(candidate, row.value);
      case Rename(t, title) =>
        var row := TargetRow(candidate, t);
        if row.Failure? {
          error := Some(row.error);
          return;
        }
        var renamed := rules.retitle(candidate[row.value].title, title);
        if renamed.None? {
          error := Some(TitleEmpty);
          return;
        }
        candidate := candidate[row.value := candidate[row.value].(title := renamed.value)];
      case Move(t, position) =>
        var row := TargetRow(candidate, t);
        if row.Failure? {
          error := Some(row.error);
          return;
        }
        var chapter := candidate[row.value];
        candidate := RemoveAt(candidate, row.value);
        var index := InsertionIndex(candidate, position, true);
        if index.Failure? {
          error := Some(index.error);
          return;
        }
        candidate := InsertAt(candidate, index.value, chapter);
      case Attach(fileId, title, seconds, position) =>
        if fileId == "" || fileId in rules.existing {
          error := Some(AllocationCollides);
          return;
        }
        if title == "" || title in attached {
          error := Some(TitleNotUnique);
          return;
        }
        if !rules.maxChapters.Allows((|candidate| + 1) as real) {
          error := Some(ChapterLimit);
          return;
        }
        if !CapacityAllows(rules.capacity, TotalSeconds(candidate) + seconds) {
          error := Some(CapacityExceeded);
          return;
        }
        var index := InsertionIndex(candidate, position, false);
        if index.Failure? {
          error := Some(index.error);
          return;
        }
        candidate := InsertAt(candidate, index.value,
          Chapter(fileId, title, fileId, seconds, "file", Idle, Some(number)));
        attached := attached + {title};
      case Unknown =>
        error := Some(UnknownAction);
    }
  }

  // ---- A whole batch ----

  datatype Plan = Plan(draft: Draft, errors: seq<Option<OpError>>)

  function AfterOne(rules: Rules, draft: Draft, op: Op, number: nat): Draft {
    var r := ApplyOne(rules, draft, op, number);
    if r.Success? then r.value else draft
  }

  function ErrorOf(rules: Rules, draft: Draft, op: Op, number: nat): Option<OpError> {
    var r := ApplyOne(rules, draft, op, number);
    if r.Success? then None else Some(r.error)
  }

  function PlanFrom(rules: Rules, draft: Draft, ops: seq<Op>, number: nat): (p: Plan)
    ensures |p.errors| == |ops|
    decreases ops
  {
    if ops == [] then Plan(draft, [])
    else
      var rest := PlanFrom(rules, AfterOne(rules, draft, ops[0], number), ops[1..], number + 1);
      Plan(rest.draft, [ErrorOf(rules, draft, ops[0], number)] + rest.errors)
  }

  function BatchRules(retitle: TitleRule, chapters: seq<Chapter>, capacity: Limit, maxChapters: Limit): Rules {
    Rules(retitle, capacity, maxChapters, ExistingIds(chapters))
  }

  /** What `apply_ops` computes. */
  function PlanOps(retitle: TitleRule, chapters: seq<Chapter>, ops: seq<Op>, capacity: Limit,
                   maxChapters: Limit): (p: Plan)
    ensures |p.errors| == |ops|
  {
    PlanFrom(BatchRules(retitle, chapters, capacity, maxChapters), Draft(chapters, {}), ops, 0)
  }

  /** Planning `ops[number..]` from `draft`, after `errors`, ends in `whole`. */
  ghost predicate Continues(rules: Rules, draft: Draft, ops: seq<Op>, number: nat,
                            errors: seq<Option<OpError>>, whole: Plan)
    requires number <= |ops|
  {
    var rest := PlanFrom(rules, draft, ops[number..], number);
    whole.draft == rest.draft && whole.errors == errors + rest.errors
  }

  lemma ContinueOne(rules: Rules, draft: Draft, ops: seq<Op>, number: nat,
                    errors: seq<Option<OpError>>, whole: Plan)
    requires number < |ops| && Continues(rules, draft, ops, number, errors, whole)
    ensures Continues(rules, AfterOne(rules, draft, ops[number], number), ops, number + 1,
                      errors + [ErrorOf(rules, draft, ops[number], number)], whole)
  {
    assert ops[number..][0] == ops[number] && ops[number..][1..] == ops[number + 1..];
    var rest := PlanFrom(rules, AfterOne(rules, draft, ops[number], number), ops[number + 1..], number + 1);
    var error := ErrorOf(rules, draft, ops[number], number);
    assert errors + ([error] + rest.errors) == errors + [error] + rest.errors;
  }

  lemma ContinuesToEnd(rules: Rules, draft: Draft, ops: seq<Op>, errors: seq<Option<OpError>>, whole: Plan)
    requires Continues(rules, draft, ops, |ops|, errors, whole)
    ensures whole == Plan(draft, errors)
  {
    assert ops[|ops|..] == [] && errors + [] == errors;
  }

  lemma {:induction false} ContinuesFromStart(rules: Rules, draft: Draft, ops: seq<Op>)
    ensures Continues(rules, draft, ops, 0, [], PlanFrom(rules, draft, ops, 0))
  {
    var whole := PlanFrom(rules, draft, ops, 0);
    assert ops[0..] == ops && [] + whole.errors == whole.errors;
  }

  method ApplyOps(retitle: TitleRule, chapters: seq<Chapter>, ops: seq<Op>, capacity: Limit, maxChapters: Limit)
    returns (work: seq<Chapter>, errors: seq<Option<OpError>>)
    ensures work == PlanOps(retitle, chapters, ops, capacity, maxChapters).draft.work
    ensures errors == PlanOps(retitle, chapters, ops, capacity, maxChapters).errors
  {
    hide ApplyOne, PlanFrom, Continues;
    var rules := BatchRules(retitle, chapters, capacity, maxChapters);
    work, errors := chapters, [];
    var attachedTitles: set<string> := {};
    var number := 0;
    ContinuesFromStart(rules, Draft(chapters, {}), ops);
    while number < |ops|
      invariant 0 <= number <= |ops|
      invariant Continues(rules, Draft(work, attachedTitles), ops, number, errors,
                          PlanOps(retitle, chapters, ops, capacity, maxChapters))
    {
      ContinueOne(rules, Draft(work, attachedTitles), ops, number, errors,
                  PlanOps(retitle, chapters, ops, capacity, maxChapters));
      var candidate, attached, error := ApplyToCandidate(rules, work, attachedTitles, ops[number], number);
      if error.None? {
        work, attachedTitles := candidate, attached;
      }
      errors := errors + [error];
      number := number + 1;
    }
    ContinuesToEnd(rules, Draft(work, attachedTitles), ops, errors,
      PlanOps(retitle, chapters, ops, capacity, maxChapters));
  }
}
