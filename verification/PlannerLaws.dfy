/** What the planner promises for every batch: ids stay unique, limits hold, rows are conserved,
    and an op that fails leaves no trace. */
module PlannerLaws {
  import opened Lists
  import opened Planner

  // ---- Unique ids ----

  lemma UniqueRemove(cs: seq<Chapter>, i: nat)
    requires UniqueIds(cs) && i < |cs|
    ensures UniqueIds(RemoveAt(cs, i)) && cs[i].id !in Ids(RemoveAt(cs, i))
  {
  }

  lemma UniqueInsert(cs: seq<Chapter>, k: nat, c: Chapter)
    requires UniqueIds(cs) && k <= |cs|
    ensures UniqueIds(InsertAt(cs, k, c)) <==> c.id !in Ids(cs)
  {
    var work := InsertAt(cs, k, c);
    if c.id in Ids(cs) {
      var i :| 0 <= i < |cs| && cs[i].id == c.id;
      var moved := if i < k then i else i + 1;
      assert work[moved].id == work[k].id;
    }
  }

  /** One op keeps ids unique, except an attach whose id is already on the running list. */
  lemma UniqueAfterOne(rules: Rules, draft: Draft, op: Op, number: nat)
    requires UniqueIds(draft.work)
    requires ApplyOne(rules, draft, op, number).Success?
    ensures UniqueIds(ApplyOne(rules, draft, op, number).value.work)
            <==> !(op.Attach? && op.fileId in Ids(draft.work))
  {
    var work := draft.work;
    match op {
      case Clear =>
      case Delete(t) => UniqueRemove(work, TargetRow(work, t).value);
      case Rename(t, title) =>
      case Move(t, p) =>
        var i := TargetRow(work, t).value;
        UniqueRemove(work, i);
        UniqueInsert(RemoveAt(work, i), InsertionIndex(RemoveAt(work, i), p, true).value, work[i]);
      case Attach(_, _, _, _) =>
        UniqueInsert(work, AttachChecks(rules, draft, op).value, NewChapter(op, number));
    }
  }

  /** The guard at `existing_ids` covers the running list for every attach still to come. */
  ghost predicate AllocationsFresh(rules: Rules, work: seq<Chapter>, ops: seq<Op>) {
    forall j :: 0 <= j < |ops| && ops[j].Attach? && ops[j].fileId in ExistingIds(work)
      ==> ops[j].fileId in rules.existing
  }

  /** File ids that the cloud allocated for one batch are pairwise distinct. */
  ghost predicate DistinctAllocations(ops: seq<Op>) {
    forall i, j :: 0 <= i < j < |ops| && ops[i].Attach? && ops[j].Attach? ==> ops[i].fileId != ops[j].fileId
  }

  lemma IdsOfRow(rules: Rules, draft: Draft, op: Op, number: nat, c: Chapter)
    requires c in AfterOne(rules, draft, op, number).work
    ensures {c.id, c.file} <= ExistingIds(draft.work) || (op.Attach? && c.id == c.file == op.fileId)
  {
    OriginAfterOne(rules, draft, op, number, c);
    if Survives(c, draft.work) {
      var k :| 0 <= k < |draft.work| && SameAudio(draft.work[k], c);
      assert draft.work[k].(title := "").id == c.(title := "").id;
      assert draft.work[k].(title := "").file == c.(title := "").file;
    } else {
      assert c.(title := "").id == op.fileId && c.(title := "").file == op.fileId;
    }
  }

  lemma IdsAfterOne(rules: Rules, draft: Draft, op: Op, number: nat)
    ensures ExistingIds(AfterOne(rules, draft, op, number).work)
            <= ExistingIds(draft.work) + (if op.Attach? then {op.fileId} else {})
  {
    var after := AfterOne(rules, draft, op, number).work;
    forall c | c in after
      ensures {c.id, c.file} <= ExistingIds(draft.work) || (op.Attach? && c.id == c.file == op.fileId)
    {
      IdsOfRow(rules, draft, op, number, c);
    }
    ExistingIdsWithin(after, ExistingIds(draft.work) + (if op.Attach? then {op.fileId} else {}));
  }

  lemma ExistingIdsWithin(cs: seq<Chapter>, bound: set<string>)
    requires forall c :: c in cs ==> c.id in bound && c.file in bound
    ensures ExistingIds(cs) <= bound
  {
    assert forall i :: 0 <= i < |cs| ==> cs[i] in cs;
  }

  lemma FreshAfterOne(rules: Rules, draft: Draft, ops: seq<Op>, number: nat)
    requires ops != [] && DistinctAllocations(ops) && AllocationsFresh(rules, draft.work, ops)
    ensures DistinctAllocations(ops[1..])
    ensures AllocationsFresh(rules, AfterOne(rules, draft, ops[0], number).work, ops[1..])
  {
    IdsAfterOne(rules, draft, ops[0], number);
  }

  lemma {:induction false} UniqueAfterPlan(rules: Rules, draft: Draft, ops: seq<Op>, number: nat)
    requires UniqueIds(draft.work) && DistinctAllocations(ops) && AllocationsFresh(rules, draft.work, ops)
    ensures UniqueIds(PlanFrom(rules, draft, ops, number).draft.work)
    decreases ops
  {
    if ops != [] {
      FreshAfterOne(rules, draft, ops, number);
      if ApplyOne(rules, draft, ops[0], number).Success? {
        UniqueAfterOne(rules, draft, ops[0], number);
      }
      UniqueAfterPlan(rules, AfterOne(rules, draft, ops[0], number), ops[1..], number + 1);
    }
  }

  /** The planner's own check does not see an id attached earlier in the same batch. */
  lemma RepeatedAllocationDuplicates(retitle: TitleRule)
    ensures var ops := [Attach("n", "One", 1.0, NOWHERE), Attach("n", "Two", 1.0, NOWHERE)];
      var plan := PlanOps(retitle, [], ops, Unbounded, Unbounded);
      plan.errors == [None, None] && !UniqueIds(plan.draft.work)
  {
    var ops := [Attach("n", "One", 1.0, NOWHERE), Attach("n", "Two", 1.0, NOWHERE)];
    var rules := BatchRules(retitle, [], Unbounded, Unbounded);
    var one := AfterOne(rules, Draft([], {}), ops[0], 0);
    assert one.work == [NewChapter(ops[0], 0)] && one.titles == {"One"};
    var two := AfterOne(rules, one, ops[1], 1);
    assert "One" != "Two" by { assert "One"[0] != "Two"[0]; }
    assert InsertionIndex(one.work, NOWHERE, false) == Success(1);
    assert two.work == [NewChapter(ops[0], 0), NewChapter(ops[1], 1)];
    assert ops[1..] == [ops[1]];
    assert PlanFrom(rules, one, ops[1..], 1) == Plan(two, [None]);
    assert two.work[0].id == two.work[1].id;
  }

  // ---- Limits ----

  ghost predicate NonNegativeSeconds(cs: seq<Chapter>) {
    forall i :: 0 <= i < |cs| ==> cs[i].seconds >= 0.0
  }

  lemma {:induction false} TotalAppend(a: seq<Chapter>, b: seq<Chapter>)
    ensures TotalSeconds(a + b) == TotalSeconds(a) + TotalSeconds(b)
    decreases |b|
  {
    if b == [] {
      assert a + b == a;
    } else {
      TotalAppend(a, b[..|b| - 1]);
      assert (a + b)[..|a + b| - 1] == a + b[..|b| - 1];
    }
  }

  lemma TotalSingle(c: Chapter)
    ensures TotalSeconds([c]) == c.seconds
  {
    assert [c][..0] == [];
  }

  lemma {:induction false} TotalAround(above: seq<Chapter>, c: Chapter, below: seq<Chapter>)
    ensures TotalSeconds(above + [c] + below) == TotalSeconds(above) + c.seconds + TotalSeconds(below)
  {
    hide TotalSeconds;
    TotalAppend(above, [c]);
    TotalSingle(c);
    TotalAppend(above + [c], below);
  }

  lemma {:induction false} TotalSplit(cs: seq<Chapter>, i: nat)
    requires i <= |cs|
    ensures TotalSeconds(cs) == TotalSeconds(cs[..i]) + TotalSeconds(cs[i..])
  {
    hide TotalSeconds;
    TotalAppend(cs[..i], cs[i..]);
    assert cs[..i] + cs[i..] == cs;
  }

  lemma InsertedIs(cs: seq<Chapter>, i: nat, c: Chapter)
    requires i <= |cs|
    ensures InsertAt(cs, i, c) == cs[..i] + [c] + cs[i..]
  {
  }

  lemma {:induction false} TotalAfterInsert(cs: seq<Chapter>, i: nat, c: Chapter)
    requires i <= |cs|
    ensures TotalSeconds(InsertAt(cs, i, c)) == TotalSeconds(cs) + c.seconds
  {
    hide *;
    InsertedIs(cs, i, c);
    TotalAround(cs[..i], c, cs[i..]);
    TotalSplit(cs, i);
  }

  lemma {:induction false} TotalAfterRemove(cs: seq<Chapter>, i: nat)
    requires i < |cs|
    ensures TotalSeconds(RemoveAt(cs, i)) == TotalSeconds(cs) - cs[i].seconds
  {
    TotalAfterInsert(RemoveAt(cs, i), i, cs[i]);
    InsertAtRemoveAt(cs, i);
  }

  /** A list within these bounds respects the Tonie, or is no worse than the list it came from. */
  ghost predicate WithinLimits(rules: Rules, start: seq<Chapter>, cs: seq<Chapter>) {
    && NonNegativeSeconds(cs)
    && (|cs| <= |start| || rules.maxChapters.Allows(|cs| as real))
    && (TotalSeconds(cs) <= TotalSeconds(start) || CapacityAllows(rules.capacity, TotalSeconds(cs)))
  }

  lemma {:induction false} NoLongerStaysWithin(rules: Rules, start: seq<Chapter>, from: seq<Chapter>, to: seq<Chapter>)
    requires WithinLimits(rules, start, from) && NonNegativeSeconds(to)
    requires |to| <= |from| && TotalSeconds(to) <= TotalSeconds(from)
    ensures WithinLimits(rules, start, to)
  {
  }

  lemma LimitsAfterRemove(rules: Rules, start: seq<Chapter>, cs: seq<Chapter>, i: nat)
    requires WithinLimits(rules, start, cs) && i < |cs|
    ensures WithinLimits(rules, start, RemoveAt(cs, i))
  {
    TotalAfterRemove(cs, i);
    NoLongerStaysWithin(rules, start, cs, RemoveAt(cs, i));
  }

  lemma LimitsAfterPutBack(rules: Rules, start: seq<Chapter>, cs: seq<Chapter>, i: nat, k: nat, c: Chapter)
    requires WithinLimits(rules, start, cs) && i < |cs| && k < |cs| && c.seconds == cs[i].seconds
    ensures WithinLimits(rules, start, InsertAt(RemoveAt(cs, i), k, c))
  {
    TotalAfterRemove(cs, i);
    TotalAfterInsert(RemoveAt(cs, i), k, c);
    NoLongerStaysWithin(rules, start, cs, InsertAt(RemoveAt(cs, i), k, c));
  }

  lemma LimitsAfterOne(rules: Rules, start: seq<Chapter>, draft: Draft, op: Op, number: nat)
    requires WithinLimits(rules, start, draft.work)
    requires op.Attach? ==> op.seconds >= 0.0
    ensures WithinLimits(rules, start, AfterOne(rules, draft, op, number).work)
  {
    var work := draft.work;
    if ApplyOne(rules, draft, op, number).Success? {
      match op {
        case Clear =>
          TotalNonNegative(work);
          NoLongerStaysWithin(rules, start, work, []);
        case Delete(t) => LimitsAfterRemove(rules, start, work, TargetRow(work, t).value);
        case Rename(t, title) =>
          var i := TargetRow(work, t).value;
          var row := work[i].(title := rules.retitle(work[i].title, title).value);
          assert work[i := row] == InsertAt(RemoveAt(work, i), i, row);
          LimitsAfterPutBack(rules, start, work, i, i, row);
        case Move(t, p) =>
          var i := TargetRow(work, t).value;
          LimitsAfterPutBack(rules, start, work, i, InsertionIndex(RemoveAt(work, i), p, true).value, work[i]);
        case Attach(_, _, _, _) =>
          TotalAfterInsert(work, AttachChecks(rules, draft, op).value, NewChapter(op, number));
      }
    }
  }

  lemma {:induction false} TotalNonNegative(cs: seq<Chapter>)
    requires NonNegativeSeconds(cs)
    ensures TotalSeconds(cs) >= 0.0
  {
    if cs != [] { TotalNonNegative(cs[..|cs| - 1]); }
  }

  lemma {:induction false} LimitsAfterPlan(rules: Rules, start: seq<Chapter>, draft: Draft, ops: seq<Op>, number: nat)
    requires WithinLimits(rules, start, draft.work)
    requires forall j :: 0 <= j < |ops| && ops[j].Attach? ==> ops[j].seconds >= 0.0
    ensures WithinLimits(rules, start, PlanFrom(rules, draft, ops, number).draft.work)
    decreases ops
  {
    if ops != [] {
      LimitsAfterOne(rules, start, draft, ops[0], number);
      LimitsAfterPlan(rules, start, AfterOne(rules, draft, ops[0], number), ops[1..], number + 1);
    }
  }

  // ---- Where every row comes from ----

  /** The same audio, possibly under another title. */
  ghost predicate SameAudio(a: Chapter, b: Chapter) {
    a.(title := "") == b.(title := "")
  }

  ghost predicate Attached(c: Chapter, ops: seq<Op>, errors: seq<Option<OpError>>, number: nat)
    requires |errors| == |ops|
  {
    && c.mark.Some? && number <= c.mark.value < number + |ops|
    && var k := c.mark.value - number;
       ops[k].Attach? && errors[k].None? && SameAudio(c, NewChapter(ops[k], c.mark.value))
  }

  ghost predicate Survives(c: Chapter, from: seq<Chapter>) {
    exists i :: 0 <= i < |from| && SameAudio(from[i], c)
  }

  lemma MembersSurvive(c: Chapter, from: seq<Chapter>)
    requires c in from
    ensures Survives(c, from)
  {
    var i :| 0 <= i < |from| && from[i] == c;
    assert SameAudio(from[i], c);
  }

  lemma RenamedSurvives(cs: seq<Chapter>, i: nat, c: Chapter, title: string)
    requires i < |cs| && c in cs[i := cs[i].(title := title)]
    ensures Survives(c, cs)
  {
    if c == cs[i].(title := title) {
      assert SameAudio(cs[i], c);
    } else {
      MembersSurvive(c, cs);
    }
  }

  lemma NewRowIsAttached(op: Op, number: nat)
    requires op.Attach?
    ensures Attached(NewChapter(op, number), [op], [None], number)
  {
  }

  lemma OriginAfterOne(rules: Rules, draft: Draft, op: Op, number: nat, c: Chapter)
    requires c in AfterOne(rules, draft, op, number).work
    ensures Survives(c, draft.work) || Attached(c, [op], [ErrorOf(rules, draft, op, number)], number)
  {
    hide Survives, Attached, SameAudio;
    if c in draft.work {
      MembersSurvive(c, draft.work);
    } else if op.Rename? {
      hide InsertionIndex;
      var i := TargetRow(draft.work, op.target).value;
      RenamedSurvives(draft.work, i, c, rules.retitle(draft.work[i].title, op.title).value);
    } else if op.Attach? {
      hide Find;
      NewRowIsAttached(op, number);
    } else {
      hide InsertionIndex;
      assert false;
    }
  }

  lemma SurvivesChain(c: Chapter, mid: seq<Chapter>, i: nat, from: seq<Chapter>)
    requires i < |mid| && SameAudio(mid[i], c) && Survives(mid[i], from)
    ensures Survives(c, from)
  {
    var k :| 0 <= k < |from| && SameAudio(from[k], mid[i]);
    assert SameAudio(from[k], c);
  }

  lemma AttachedChain(c: Chapter, mid: Chapter, ops: seq<Op>, errors: seq<Option<OpError>>, number: nat)
    requires ops != [] && |errors| == |ops| && Attached(mid, [ops[0]], [errors[0]], number) && SameAudio(mid, c)
    ensures Attached(c, ops, errors, number)
  {
  }

  /** Every planned row is an original row (file, seconds and type untouched) or a successful attach. */
  lemma {:induction false} RowsAreConserved(rules: Rules, draft: Draft, ops: seq<Op>, number: nat, c: Chapter)
    requires c in PlanFrom(rules, draft, ops, number).draft.work
    ensures Survives(c, draft.work) || Attached(c, ops, PlanFrom(rules, draft, ops, number).errors, number)
    decreases ops
  {
    hide ApplyOne, SameAudio;
    if ops == [] {
      MembersSurvive(c, draft.work);
    } else {
      var next := AfterOne(rules, draft, ops[0], number);
      RowsAreConserved(rules, next, ops[1..], number + 1, c);
      if Survives(c, next.work) {
        var i :| 0 <= i < |next.work| && SameAudio(next.work[i], c);
        OriginAfterOne(rules, draft, ops[0], number, next.work[i]);
        if Survives(next.work[i], draft.work) {
          SurvivesChain(c, next.work, i, draft.work);
        } else {
          AttachedChain(c, next.work[i], ops, PlanFrom(rules, draft, ops, number).errors, number);
        }
      }
    }
  }

  ghost predicate DistinctMarks(cs: seq<Chapter>, below: nat) {
    && (forall i :: 0 <= i < |cs| && cs[i].mark.Some? ==> cs[i].mark.value < below)
    && (forall i, j :: 0 <= i < j < |cs| && cs[i].mark.Some? ==> cs[i].mark != cs[j].mark)
  }

  lemma MarksRemove(cs: seq<Chapter>, i: nat, below: nat)
    requires DistinctMarks(cs, below) && i < |cs|
    ensures DistinctMarks(RemoveAt(cs, i), below)
    ensures cs[i].mark.Some? ==> forall j :: 0 <= j < |RemoveAt(cs, i)| ==> RemoveAt(cs, i)[j].mark != cs[i].mark
  {
  }

  lemma MarksInsert(cs: seq<Chapter>, k: nat, c: Chapter, below: nat)
    requires DistinctMarks(cs, below) && k <= |cs|
    requires c.mark.Some? ==> c.mark.value < below && forall j :: 0 <= j < |cs| ==> cs[j].mark != c.mark
    ensures DistinctMarks(InsertAt(cs, k, c), below)
  {
  }

  lemma MarksAfterOne(rules: Rules, draft: Draft, op: Op, number: nat)
    requires DistinctMarks(draft.work, number)
    ensures DistinctMarks(AfterOne(rules, draft, op, number).work, number + 1)
  {
    var work := draft.work;
    assert DistinctMarks(work, number + 1);
    if ApplyOne(rules, draft, op, number).Success? {
      match op {
        case Clear =>
        case Delete(t) => MarksRemove(work, TargetRow(work, t).value, number + 1);
        case Rename(t, title) =>
        case Move(t, p) =>
          var i := TargetRow(work, t).value;
          MarksRemove(work, i, number + 1);
          MarksInsert(RemoveAt(work, i), InsertionIndex(RemoveAt(work, i), p, true).value, work[i], number + 1);
        case Attach(_, _, _, _) =>
          MarksInsert(work, AttachChecks(rules, draft, op).value, NewChapter(op, number), number + 1);
      }
    }
  }

  lemma {:induction false} MarksStayDistinct(rules: Rules, draft: Draft, ops: seq<Op>, number: nat)
    requires DistinctMarks(draft.work, number)
    ensures DistinctMarks(PlanFrom(rules, draft, ops, number).draft.work, number + |ops|)
    decreases ops
  {
    if ops != [] {
      MarksAfterOne(rules, draft, ops[0], number);
      MarksStayDistinct(rules, AfterOne(rules, draft, ops[0], number), ops[1..], number + 1);
    }
  }

  // ---- Failed ops leave no trace ----

  /** The same rows up to `_attach` marks. */
  ghost predicate Alike(a: seq<Chapter>, b: seq<Chapter>) {
    |a| == |b| && forall i :: 0 <= i < |a| ==> a[i].(mark := None) == b[i].(mark := None)
  }

  lemma AlikeFind(a: seq<Chapter>, b: seq<Chapter>, id: string)
    requires Alike(a, b)
    ensures Find(a, id) == Find(b, id)
  {
    assert forall i :: 0 <= i < |a| ==> a[i].(mark := None).id == b[i].(mark := None).id;
    assert forall i :: 0 <= i < |a| ==> a[i].id == b[i].id;
    forall i ensures IsOnly(a, id, i) <==> IsOnly(b, id, i) { }
    if Find(a, id).Some? { assert IsOnly(b, id, Find(a, id).value); }
    if Find(b, id).Some? { assert IsOnly(a, id, Find(b, id).value); }
  }

  lemma AlikeInsertionIndex(a: seq<Chapter>, b: seq<Chapter>, p: Position, strict: bool)
    requires Alike(a, b)
    ensures InsertionIndex(a, p, strict) == InsertionIndex(b, p, strict)
  {
    AlikeFind(a, b, p.before);
    AlikeFind(a, b, p.after);
  }

  lemma {:induction false} AlikeTotal(a: seq<Chapter>, b: seq<Chapter>)
    requires Alike(a, b)
    ensures TotalSeconds(a) == TotalSeconds(b)
  {
    if a != [] {
      var n := |a| - 1;
      AlikeTotal(a[..n], b[..n]);
      assert a[n].(mark := None).seconds == b[n].(mark := None).seconds;
    }
  }

  ghost predicate SameDraft(a: Draft, b: Draft) {
    Alike(a.work, b.work) && a.titles == b.titles
  }

  ghost predicate SameStep(a: Result<Draft, OpError>, b: Result<Draft, OpError>) {
    if a.Success? then b.Success? && SameDraft(a.value, b.value) else b == a
  }

  lemma AlikeRemove(a: seq<Chapter>, b: seq<Chapter>, i: nat)
    requires Alike(a, b) && i < |a|
    ensures Alike(RemoveAt(a, i), RemoveAt(b, i))
  {
  }

  lemma AlikeInsert(a: seq<Chapter>, b: seq<Chapter>, k: nat, c: Chapter, d: Chapter)
    requires Alike(a, b) && k <= |a| && c.(mark := None) == d.(mark := None)
    ensures Alike(InsertAt(a, k, c), InsertAt(b, k, d))
  {
  }

  lemma AlikeRow(a: seq<Chapter>, b: seq<Chapter>, i: nat, title: string)
    requires Alike(a, b) && i < |a|
    ensures a[i].title == b[i].title && Alike(a[i := a[i].(title := title)], b[i := b[i].(title := title)])
  {
    var x, y := a[i].(mark := None), b[i].(mark := None);
    assert x == y && x.title == a[i].title && y.title == b[i].title;
    assert a[i].(title := title).(mark := None) == x.(title := title);
    assert b[i].(title := title).(mark := None) == y.(title := title);
  }

  lemma AlikeTarget(a: seq<Chapter>, b: seq<Chapter>, t: Target)
    requires Alike(a, b)
    ensures TargetRow(a, t) == TargetRow(b, t)
  {
    AlikeFind(a, b, t.chapterId);
  }

  /** An op behaves the same on lists that differ in marks only, whatever its number. */
  lemma AlikeOne(rules: Rules, a: Draft, b: Draft, op: Op, m: nat, n: nat)
    requires SameDraft(a, b)
    ensures SameStep(ApplyOne(rules, a, op, m), ApplyOne(rules, b, op, n))
  {
    match op {
      case Clear =>
      case Unknown =>
      case Delete(t) =>
        AlikeTarget(a.work, b.work, t);
        var row := TargetRow(a.work, t);
        if row.Success? { AlikeRemove(a.work, b.work, row.value); }
      case Rename(t, title) =>
        AlikeTarget(a.work, b.work, t);
        var row := TargetRow(a.work, t);
        if row.Success? {
          var renamed := rules.retitle(a.work[row.value].title, title);
          AlikeRow(a.work, b.work, row.value, if renamed.Some? then renamed.value else "");
        }
      case Move(t, p) =>
        AlikeTarget(a.work, b.work, t);
        var row := TargetRow(a.work, t);
        if row.Success? { AlikeMove(a.work, b.work, row.value, p); }
      case Attach(_, _, _, p) =>
        AlikeTotal(a.work, b.work);
        AlikeInsertionIndex(a.work, b.work, p, false);
        var k := AttachChecks(rules, a, op);
        if k.Success? { AlikeInsert(a.work, b.work, k.value, NewChapter(op, m), NewChapter(op, n)); }
    }
  }

  lemma AlikeMove(a: seq<Chapter>, b: seq<Chapter>, i: nat, p: Position)
    requires Alike(a, b) && i < |a|
    ensures var k := InsertionIndex(RemoveAt(a, i), p, true);
      && k == InsertionIndex(RemoveAt(b, i), p, true)
      && (k.Success? ==> Alike(InsertAt(RemoveAt(a, i), k.value, a[i]), InsertAt(RemoveAt(b, i), k.value, b[i])))
  {
    AlikeRemove(a, b, i);
    AlikeInsertionIndex(RemoveAt(a, i), RemoveAt(b, i), p, true);
    var k := InsertionIndex(RemoveAt(a, i), p, true);
    if k.Success? { AlikeInsert(RemoveAt(a, i), RemoveAt(b, i), k.value, a[i], b[i]); }
  }

  /** The ops that got no error. */
  function Succeeded(ops: seq<Op>, errors: seq<Option<OpError>>): (r: seq<Op>)
    requires |errors| == |ops|
    decreases ops
  {
    if ops == [] then []
    else (if errors[0].None? then [ops[0]] else []) + Succeeded(ops[1..], errors[1..])
  }

  /** Planning only the ops that succeed gives the same list, and then every op succeeds. */
  lemma {:induction false} FailedOpsAreInvisible(rules: Rules, a: Draft, b: Draft, ops: seq<Op>, m: nat, n: nat)
    requires SameDraft(a, b)
    ensures var all := PlanFrom(rules, a, ops, m);
      var good := Succeeded(ops, all.errors);
      var kept := PlanFrom(rules, b, good, n);
      && SameDraft(all.draft, kept.draft)
      && forall k :: 0 <= k < |good| ==> kept.errors[k] == None
    decreases ops
  {
    if ops != [] {
      AlikeOne(rules, a, b, ops[0], m, n);
      var next := AfterOne(rules, a, ops[0], m);
      var rest := PlanFrom(rules, next, ops[1..], m + 1);
      var tail := Succeeded(ops[1..], rest.errors);
      assert PlanFrom(rules, a, ops, m).errors[1..] == rest.errors;
      if ErrorOf(rules, a, ops[0], m).None? {
        FailedOpsAreInvisible(rules, next, AfterOne(rules, b, ops[0], n), ops[1..], m + 1, n + 1);
        assert ([ops[0]] + tail)[1..] == tail;
      } else {
        FailedOpsAreInvisible(rules, next, b, ops[1..], m + 1, n);
        assert [] + tail == tail;
      }
    }
  }

  // ---- Splitting a batch ----

  /** Planning `a + b` is planning `a`, then `b` on the result. */
  lemma {:induction false} PlanSplits(rules: Rules, draft: Draft, a: seq<Op>, b: seq<Op>, number: nat)
    ensures var first := PlanFrom(rules, draft, a, number);
      var second := PlanFrom(rules, first.draft, b, number + |a|);
      PlanFrom(rules, draft, a + b, number) == Plan(second.draft, first.errors + second.errors)
    decreases a
  {
    hide ApplyOne, AfterOne, ErrorOf;
    if a == [] {
      assert a + b == b;
    } else {
      assert (a + b)[0] == a[0] && (a + b)[1..] == a[1..] + b;
      PlanSplits(rules, AfterOne(rules, draft, a[0], number), a[1..], b, number + 1);
    }
  }

  lemma {:induction false} PlanNext(rules: Rules, draft: Draft, ops: seq<Op>, number: nat, n: nat)
    requires n < |ops|
    ensures PlanFrom(rules, draft, ops[..n + 1], number).draft
            == AfterOne(rules, PlanFrom(rules, draft, ops[..n], number).draft, ops[n], number + n)
  {
    hide ApplyOne;
    assert ops[..n + 1] == ops[..n] + [ops[n]];
    PlanSplits(rules, draft, ops[..n], [ops[n]], number);
    assert [ops[n]][1..] == [];
  }

  /** A successful attach whose id is already on the running list. */
  ghost predicate Repeats(rules: Rules, draft: Draft, op: Op, number: nat) {
    ApplyOne(rules, draft, op, number).Success? && op.Attach? && op.fileId in Ids(draft.work)
  }

  /** No successful attach of the batch repeats an id of the running list. */
  ghost predicate NoRepeats(rules: Rules, draft: Draft, ops: seq<Op>, number: nat) {
    forall n :: 0 <= n < |ops| ==> !Repeats(rules, PlanFrom(rules, draft, ops[..n], number).draft, ops[n], number + n)
  }

  lemma NoRepeatsSplits(rules: Rules, draft: Draft, a: seq<Op>, b: seq<Op>, number: nat)
    requires NoRepeats(rules, draft, a + b, number)
    ensures NoRepeats(rules, draft, a, number)
    ensures NoRepeats(rules, PlanFrom(rules, draft, a, number).draft, b, number + |a|)
  {
    hide PlanFrom, Repeats;
    forall n | 0 <= n < |a| ensures !Repeats(rules, PlanFrom(rules, draft, a[..n], number).draft, a[n], number + n) {
      assert (a + b)[..n] == a[..n] && (a + b)[n] == a[n];
    }
    var mid := PlanFrom(rules, draft, a, number).draft;
    forall n | 0 <= n < |b|
      ensures !Repeats(rules, PlanFrom(rules, mid, b[..n], number + |a|).draft, b[n], number + |a| + n)
    {
      var m := |a| + n;
      assert (a + b)[..m] == a + b[..n] && (a + b)[m] == b[n];
      PlanSplits(rules, draft, a, b[..n], number);
    }
  }

  lemma NoRepeatsHead(rules: Rules, draft: Draft, ops: seq<Op>, number: nat)
    requires ops != [] && NoRepeats(rules, draft, ops, number)
    ensures !Repeats(rules, draft, ops[0], number)
    ensures NoRepeats(rules, AfterOne(rules, draft, ops[0], number), ops[1..], number + 1)
  {
    hide PlanFrom, Repeats, AfterOne;
    assert ops == [ops[0]] + ops[1..] && ops[..0] == [];
    NothingPlanned(rules, draft, number);
    NoRepeatsSplits(rules, draft, [ops[0]], ops[1..], number);
    PlanNext(rules, draft, ops, number, 0);
    assert ops[..1] == [ops[0]];
  }

  /** The file of every row is its own id, or known to the check against `existing_ids`. */
  ghost predicate KnownFiles(rules: Rules, work: seq<Chapter>) {
    forall i :: 0 <= i < |work| ==> work[i].file == work[i].id || work[i].file in rules.existing
  }

  lemma KnownAfterOne(rules: Rules, draft: Draft, op: Op, number: nat)
    requires KnownFiles(rules, draft.work)
    ensures KnownFiles(rules, AfterOne(rules, draft, op, number).work)
  {
    hide AfterOne;
    var after := AfterOne(rules, draft, op, number).work;
    forall i | 0 <= i < |after| ensures after[i].file == after[i].id || after[i].file in rules.existing {
      var c := after[i];
      OriginAfterOne(rules, draft, op, number, c);
      if Survives(c, draft.work) {
        var k :| 0 <= k < |draft.work| && SameAudio(draft.work[k], c);
        assert draft.work[k].(title := "").id == c.(title := "").id;
        assert draft.work[k].(title := "").file == c.(title := "").file;
      } else {
        assert c.(title := "").id == op.fileId && c.(title := "").file == op.fileId;
      }
    }
  }

  /** A successful attach that repeats no id of the running list also meets none of its files. */
  lemma UnrepeatedIsFresh(rules: Rules, draft: Draft, op: Op, number: nat)
    requires KnownFiles(rules, draft.work) && !Repeats(rules, draft, op, number) && op.Attach?
    requires ApplyOne(rules, draft, op, number).Success?
    ensures op.fileId !in ExistingIds(draft.work)
  {
    hide InsertionIndex;
    assert op.fileId !in rules.existing;
  }

  lemma {:induction false} KnownAfterPlan(rules: Rules, draft: Draft, ops: seq<Op>, number: nat)
    requires KnownFiles(rules, draft.work)
    ensures KnownFiles(rules, PlanFrom(rules, draft, ops, number).draft.work)
    decreases ops
  {
    hide KnownFiles, AfterOne;
    if ops != [] {
      KnownAfterOne(rules, draft, ops[0], number);
      KnownAfterPlan(rules, AfterOne(rules, draft, ops[0], number), ops[1..], number + 1);
    }
  }

  lemma UniqueUnlessRepeats(rules: Rules, draft: Draft, op: Op, number: nat)
    requires UniqueIds(draft.work)
    ensures UniqueIds(AfterOne(rules, draft, op, number).work) <==> !Repeats(rules, draft, op, number)
  {
    hide UniqueIds, ApplyOne;
    if ApplyOne(rules, draft, op, number).Success? { UniqueAfterOne(rules, draft, op, number); }
  }

  /** Over a batch, ids stay unique all the way exactly when no successful attach repeats an id of the running list. */
  lemma {:induction false} PlanStaysUniqueIff(rules: Rules, draft: Draft, ops: seq<Op>, number: nat)
    requires UniqueIds(draft.work)
    ensures (forall n :: 0 <= n <= |ops| ==> UniqueIds(PlanFrom(rules, draft, ops[..n], number).draft.work))
            <==> NoRepeats(rules, draft, ops, number)
  {
    hide PlanFrom, AfterOne, Repeats, UniqueIds;
    assert ops[..0] == [];
    NothingPlanned(rules, draft, number);
    if n :| 0 <= n < |ops| && Repeats(rules, PlanFrom(rules, draft, ops[..n], number).draft, ops[n], number + n) {
      var before := PlanFrom(rules, draft, ops[..n], number).draft;
      PlanNext(rules, draft, ops, number, n);
      if UniqueIds(before.work) { UniqueUnlessRepeats(rules, before, ops[n], number + n); }
    } else {
      PrefixesStayUnique(rules, draft, ops, number, |ops|);
    }
  }

  lemma {:induction false} PrefixesStayUnique(rules: Rules, draft: Draft, ops: seq<Op>, number: nat, m: nat)
    requires UniqueIds(draft.work) && m <= |ops|
    requires forall n :: 0 <= n < m ==>
      !Repeats(rules, PlanFrom(rules, draft, ops[..n], number).draft, ops[n], number + n)
    ensures forall n :: 0 <= n <= m ==> UniqueIds(PlanFrom(rules, draft, ops[..n], number).draft.work)
    decreases m
  {
    hide PlanFrom, AfterOne, Repeats, UniqueIds;
    if m == 0 {
      assert ops[..0] == [];
      NothingPlanned(rules, draft, number);
    } else {
      PrefixesStayUnique(rules, draft, ops, number, m - 1);
      PlanNext(rules, draft, ops, number, m - 1);
      UniqueUnlessRepeats(rules, PlanFrom(rules, draft, ops[..m - 1], number).draft, ops[m - 1], number + m - 1);
    }
  }

  /** Distinct file ids never repeat. */
  lemma DistinctNeverRepeat(rules: Rules, draft: Draft, ops: seq<Op>, number: nat)
    requires UniqueIds(draft.work) && DistinctAllocations(ops) && AllocationsFresh(rules, draft.work, ops)
    ensures NoRepeats(rules, draft, ops, number)
  {
    hide PlanFrom, UniqueIds, AllocationsFresh, NoRepeats;
    forall n | 0 <= n <= |ops| ensures UniqueIds(PlanFrom(rules, draft, ops[..n], number).draft.work) {
      DistinctPrefix(rules, draft.work, ops, n);
      UniqueAfterPlan(rules, draft, ops[..n], number);
    }
    PlanStaysUniqueIff(rules, draft, ops, number);
  }

  lemma DistinctPrefix(rules: Rules, work: seq<Chapter>, ops: seq<Op>, n: nat)
    requires n <= |ops| && DistinctAllocations(ops) && AllocationsFresh(rules, work, ops)
    ensures DistinctAllocations(ops[..n]) && AllocationsFresh(rules, work, ops[..n])
  {
    hide ExistingIds;
    assert forall j :: 0 <= j < n ==> ops[..n][j] == ops[j];
  }

  lemma {:induction false} NothingPlanned(rules: Rules, draft: Draft, number: nat)
    ensures PlanFrom(rules, draft, [], number).draft == draft
  {
  }

  lemma {:induction false} PlanSplitsAt(rules: Rules, draft: Draft, ops: seq<Op>, first: nat)
    requires first <= |ops|
    ensures var head := PlanFrom(rules, draft, ops[..first], 0);
      var tail := PlanFrom(rules, head.draft, ops[first..], first);
      PlanFrom(rules, draft, ops, 0) == Plan(tail.draft, head.errors + tail.errors)
  {
    var a, b := ops[..first], ops[first..];
    PlanSplits(rules, draft, a, b, 0);
    assert a + b == ops;
  }

  /** A successful attach never reuses an id or file of the snapshot. */
  lemma {:induction false} AttachedAreFresh(rules: Rules, draft: Draft, ops: seq<Op>, number: nat, k: nat)
    requires k < |ops| && ops[k].Attach? && PlanFrom(rules, draft, ops, number).errors[k].None?
    ensures ops[k].fileId !in rules.existing
    decreases ops
  {
    if k > 0 {
      var next := AfterOne(rules, draft, ops[0], number);
      assert PlanFrom(rules, draft, ops, number).errors[1..] == PlanFrom(rules, next, ops[1..], number + 1).errors;
      AttachedAreFresh(rules, next, ops[1..], number + 1, k - 1);
    }
  }

  /** Conservation for a whole `apply_ops` call on a fresh snapshot. */
  lemma PlanConserves(retitle: TitleRule, chapters: seq<Chapter>, ops: seq<Op>, capacity: Limit, maxChapters: Limit)
    requires UniqueIds(chapters) && NonNegativeSeconds(chapters) && DistinctAllocations(ops)
    requires forall i :: 0 <= i < |chapters| ==> chapters[i].mark.None?
    requires forall j :: 0 <= j < |ops| && ops[j].Attach? ==> ops[j].seconds >= 0.0
    ensures var plan := PlanOps(retitle, chapters, ops, capacity, maxChapters);
      && UniqueIds(plan.draft.work)
      && WithinLimits(BatchRules(retitle, chapters, capacity, maxChapters), chapters, plan.draft.work)
      && DistinctMarks(plan.draft.work, |ops|)
      && forall c :: c in plan.draft.work ==>
           if c.mark.None? then Survives(c, chapters) else Attached(c, ops, plan.errors, 0)
  {
    var rules := BatchRules(retitle, chapters, capacity, maxChapters);
    var draft := Draft(chapters, {});
    UniqueAfterPlan(rules, draft, ops, 0);
    LimitsAfterPlan(rules, chapters, draft, ops, 0);
    MarksStayDistinct(rules, draft, ops, 0);
    var plan := PlanFrom(rules, draft, ops, 0);
    forall c | c in plan.draft.work
      ensures if c.mark.None? then Survives(c, chapters) else Attached(c, ops, plan.errors, 0)
    {
      RowsAreConserved(rules, draft, ops, 0, c);
      if Survives(c, chapters) {
        var i :| 0 <= i < |chapters| && SameAudio(chapters[i], c);
        assert chapters[i].mark == c.(title := "").mark;
      }
    }
  }
}
