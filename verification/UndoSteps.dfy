/** The private inverse recipes of app/undo.py, and why replaying them backwards restores the plan. */
module UndoSteps {
  import opened Lists
  import opened Planner

  datatype OpResult = OpResult(error: Option<OpError>, chapterId: Option<string>)

  datatype Anchor = Before(id: string) | After(id: string) | AtStart

  datatype Step =
    | SetTitle(chapterId: string, title: string)
    | MoveBack(chapterId: string, to: Anchor)
    | Remove(chapterId: string)

  datatype UndoError = IdentityInvalid | InventoryChanged | PositionChanged | NotAvailable | AccountChanged

  /** Staging file ids mapped to the permanent chapter ids the cloud assigned. */
  type IdMap = map<string, string>

  function Image(names: IdMap, id: string): string {
    if id in names then names[id] else id
  }

  // ---- Recording ----

  /** The `assigned` dict: a later attach of the same file id wins. */
  function AssignedIds(ops: seq<Op>, results: seq<OpResult>): (r: IdMap)
    requires |ops| == |results|
    ensures forall k :: 0 <= k < |ops| && ops[k].Attach? && results[k].chapterId.Some? ==> ops[k].fileId in r
    ensures forall id :: id in r ==>
      exists k :: 0 <= k < |ops| && ops[k].Attach? && ops[k].fileId == id && results[k].chapterId == Some(r[id])
  {
    if ops == [] then map[]
    else
      var n := |ops| - 1;
      var r := AssignedIds(ops[..n], results[..n]);
      if ops[n].Attach? && results[n].chapterId.Some?
      then r[ops[n].fileId := results[n].chapterId.value]
      else r
  }

  /** The row an op names: the first with its chapter id, else its row number. */
  function NamedRow(work: seq<Chapter>, t: Target): (r: Result<nat, UndoError>)
    ensures r.Success? ==> r.value < |work|
  {
    var at := if t.chapterId == "" then [] else Positions(work, t.chapterId);
    if at != [] then (assert at[0] in at; Success(at[0]))
    else if t.index.Some? && 0 <= t.index.value < |work| then Success(t.index.value)
    else Failure(IdentityInvalid)
  }

  function AnchorOf(work: seq<Chapter>, i: nat): Anchor
    requires i < |work|
  {
    if i + 1 < |work| then Before(work[i + 1].id)
    else if i > 0 then After(work[i - 1].id)
    else AtStart
  }

  /** The recipe for one op that ran without error, in the ids of `work`; None where there is none. */
  function InverseOf(work: seq<Chapter>, op: Op, result: OpResult): Result<Option<Step>, UndoError> {
    match op
    case Rename(t, _) =>
      (match NamedRow(work, t)
       case Failure(e) => Failure(e)
       case Success(i) => Success(Some(SetTitle(work[i].id, work[i].title))))
    case Move(t, _) =>
      (match NamedRow(work, t)
       case Failure(e) => Failure(e)
       case Success(i) => Success(Some(MoveBack(work[i].id, AnchorOf(work, i)))))
    case Attach(_, _, _, _) =>
      Success(if result.chapterId.Some? then Some(Remove(result.chapterId.value)) else None)
    case _ => Success(None)
  }

  function RemapAnchor(names: IdMap, to: Anchor): Anchor {
    match to
    case Before(id) => Before(Image(names, id))
    case After(id) => After(Image(names, id))
    case AtStart => AtStart
  }

  function Remap(names: IdMap, step: Step): Step {
    match step
    case SetTitle(id, title) => SetTitle(Image(names, id), title)
    case MoveBack(id, to) => MoveBack(Image(names, id), RemapAnchor(names, to))
    case Remove(id) => Remove(Image(names, id))
  }

  /** The recipe stored for one op, with staging ids replaced. */
  function Recorded(names: IdMap, work: seq<Chapter>, op: Op, result: OpResult): Result<Option<Step>, UndoError> {
    if result.error.Some? then Success(None)
    else
      match InverseOf(work, op, result)
      case Failure(e) => Failure(e)
      case Success(None) => Success(None)
      case Success(Some(step)) => Success(Some(Remap(names, step)))
  }

  /** The list after replaying one op on its own, without limits. */
  function Replayed(retitle: TitleRule, work: seq<Chapter>, op: Op, result: OpResult): seq<Chapter> {
    if result.error.Some? then work
    else PlanOps(retitle, work, [op], Unbounded, Unbounded).draft.work
  }

  function RecordFrom(retitle: TitleRule, names: IdMap, work: seq<Chapter>, ops: seq<Op>, results: seq<OpResult>)
    : (r: Result<seq<Option<Step>>, UndoError>)
    requires |ops| == |results|
    ensures r.Success? ==> |r.value| == |ops|
    decreases ops
  {
    if ops == [] then Success([])
    else
      match Recorded(names, work, ops[0], results[0])
      case Failure(e) => Failure(e)
      case Success(step) =>
        match RecordFrom(retitle, names, Replayed(retitle, work, ops[0], results[0]), ops[1..], results[1..])
        case Failure(e) => Failure(e)
        case Success(rest) => Success([step] + rest)
  }

  /** `inverse_steps`: one optional recipe per op, each captured just before that op is replayed. */
  method InverseSteps(retitle: TitleRule, before: seq<Chapter>, ops: seq<Op>, results: seq<OpResult>)
    returns (r: Result<seq<Option<Step>>, UndoError>)
    requires |ops| == |results|
    ensures r == RecordFrom(retitle, AssignedIds(ops, results), before, ops, results)
  {
    var work, steps := before, [];
    var names := AssignedIds(ops, results);
    var n := 0;
    assert ops[0..] == ops && results[0..] == results;
    PrependNothing(RecordFrom(retitle, names, before, ops, results));
    while n < |ops|
      invariant 0 <= n <= |ops|
      invariant RecordFrom(retitle, names, before, ops, results)
        == Prepend(steps, RecordFrom(retitle, names, work, ops[n..], results[n..]))
    {
      assert ops[n..][0] == ops[n] && ops[n..][1..] == ops[n + 1..];
      assert results[n..][0] == results[n] && results[n..][1..] == results[n + 1..];
      var recorded := Recorded(names, work, ops[n], results[n]);
      if recorded.Failure? {
        return Failure(recorded.error);
      }
      PrependOne(steps, recorded.value,
        RecordFrom(retitle, names, Replayed(retitle, work, ops[n], results[n]), ops[n + 1..], results[n + 1..]));
      if results[n].error.None? {
        var replay, _ := ApplyOps(retitle, work, [ops[n]], Unbounded, Unbounded);
        work := replay;
      }
      steps := steps + [recorded.value];
      n := n + 1;
    }
    assert ops[n..] == [] && steps + [] == steps;
    return Success(steps);
  }

  function Prepend<T, E>(s: seq<T>, r: Result<seq<T>, E>): Result<seq<T>, E> {
    if r.Success? then Success(s + r.value) else r
  }

  lemma PrependNothing<T, E>(r: Result<seq<T>, E>)
    ensures Prepend([], r) == r
  {
    if r.Success? { assert [] + r.value == r.value; }
  }

  lemma PrependOne<T, E>(s: seq<T>, x: T, r: Result<seq<T>, E>)
    ensures Prepend(s, Prepend([x], r)) == Prepend(s + [x], r)
  {
    if r.Success? { assert s + ([x] + r.value) == s + [x] + r.value; }
  }

  // ---- Applying ----

  function PutBack(rest: seq<Chapter>, to: Anchor, row: Chapter): Result<seq<Chapter>, UndoError> {
    match to
    case AtStart => Success(InsertAt(rest, 0, row))
    case Before(id) =>
      (var at := Find(rest, id);
       if at.None? then Failure(PositionChanged) else Success(InsertAt(rest, at.value, row)))
    case After(id) =>
      (var at := Find(rest, id);
       if at.None? then Failure(PositionChanged) else Success(InsertAt(rest, at.value + 1, row)))
  }

  function ApplyStep(work: seq<Chapter>, step: Step): Result<seq<Chapter>, UndoError> {
    var at := Find(work, step.chapterId);
    if at.None? then Failure(InventoryChanged)
    else
      match step
      case SetTitle(_, title) => Success(work[at.value := work[at.value].(title := title)])
      case Remove(_) => Success(RemoveAt(work, at.value))
      case MoveBack(_, to) => PutBack(RemoveAt(work, at.value), to, work[at.value])
  }

  function ApplySteps(work: seq<Chapter>, steps: seq<Step>): Result<seq<Chapter>, UndoError>
    decreases steps
  {
    if steps == [] then Success(work)
    else
      match ApplyStep(work, steps[0])
      case Failure(e) => Failure(e)
      case Success(next) => ApplySteps(next, steps[1..])
  }

  method ApplyInverse(chapters: seq<Chapter>, steps: seq<Step>) returns (r: Result<seq<Chapter>, UndoError>)
    ensures r == ApplySteps(chapters, steps)
  {
    hide ApplySteps, Find, PutBack;
    var work, n := chapters, 0;
    while n < |steps|
      invariant 0 <= n <= |steps|
      invariant ApplySteps(chapters, steps) == ApplySteps(work, steps[n..])
    {
      RestOfSteps(work, steps, n);
      var step := steps[n];
      var at := Find(work, step.chapterId);
      if at.None? {
        return Failure(InventoryChanged);
      }
      match step {
        case SetTitle(_, title) => work := work[at.value := work[at.value].(title := title)];
        case Remove(_) => work := RemoveAt(work, at.value);
        case MoveBack(_, to) =>
          var moved := PutBack(RemoveAt(work, at.value), to, work[at.value]);
          if moved.Failure? {
            return Failure(moved.error);
          }
          work := moved.value;
      }
      n := n + 1;
    }
    NoMoreSteps(work, steps[n..]);
    return Success(work);
  }

  lemma {:induction false} NoMoreSteps(work: seq<Chapter>, steps: seq<Step>)
    ensures steps == [] ==> ApplySteps(work, steps) == Success(work)
  {
  }

  lemma {:induction false} RestOfSteps(work: seq<Chapter>, steps: seq<Step>, n: nat)
    requires n < |steps|
    ensures ApplySteps(work, steps[n..])
            == (match ApplyStep(work, steps[n])
                case Failure(e) => Failure(e)
                case Success(next) => ApplySteps(next, steps[n + 1..]))
  {
    assert steps[n..][1..] == steps[n + 1..];
    hide ApplyStep;
  }

  lemma {:induction false} ApplyStepsAppend(work: seq<Chapter>, steps: seq<Step>, last: Step)
    ensures ApplySteps(work, steps + [last])
            == (match ApplySteps(work, steps)
                case Failure(e) => Failure(e)
                case Success(next) => ApplyStep(next, last))
    decreases steps
  {
    if steps == [] {
      assert steps + [last] == [last];
      var r := ApplyStep(work, last);
      if r.Success? { assert ApplySteps(r.value, [last][1..]) == r; }
    } else {
      assert (steps + [last])[0] == steps[0] && (steps + [last])[1..] == steps[1..] + [last];
      var r := ApplyStep(work, steps[0]);
      if r.Success? { ApplyStepsAppend(r.value, steps[1..], last); }
    }
  }
}
