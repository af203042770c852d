/** The browser's preview of queued edits (web/assets/tonie-actions.js): it layers them on the server's last list, and
    must show what the server's planner will make of them. */
module Overlay {
  import opened Lists
  import opened Planner
  import opened PlannerLaws

  /** A displayed row. */
  datatype Row = Row(id: string, title: string)

  predicate UniqueRows(rows: seq<Row>) {
    forall i, j :: 0 <= i < j < |rows| ==> rows[i].id != rows[j].id
  }

  /** `findIndex`: the first row with this id. */
  function First(rows: seq<Row>, id: string): (r: Option<nat>)
    ensures r.Some? ==> r.value < |rows| && rows[r.value].id == id
    ensures r.None? ==> forall i :: 0 <= i < |rows| ==> rows[i].id != id
  {
    if rows == [] then None
    else if rows[0].id == id then Some(0)
    else
      var r := First(rows[1..], id);
      if r.Some? then Some(r.value + 1) else None
  }

  /** `resolveToniesPosition`; None where the anchor is gone. */
  function Resolve(rows: seq<Row>, p: Position): (r: Option<nat>)
    ensures r.Some? ==> r.value <= |rows|
  {
    if p.edge == Some(Start) then Some(0)
    else if p.edge == Some(End) then Some(|rows|)
    else
      var before := if p.before == "" then None else First(rows, p.before);
      if before.Some? then Some(before.value)
      else if p.before != "" && p.index.None? then None
      else
        var after := if p.after == "" then None else First(rows, p.after);
        if after.Some? then Some(after.value + 1)
        else if p.after != "" && p.index.None? then None
        else Some(Clamp(if p.index.Some? then p.index.value else 0, |rows|))
  }

  /** `toniesPositionAt` */
  function PositionAt(rows: seq<Row>, index: int): Position {
    if index <= 0 then Position(Some(Start), "", "", None)
    else if index >= |rows| then Position(Some(End), "", "", None)
    else Position(None, rows[index].id, "", Some(index))
  }

  function OverlayOne(retitle: (string, string) -> string, rows: seq<Row>, op: Op): seq<Row> {
    match op
    case Clear => []
    case Delete(t) =>
      (match First(rows, t.chapterId) case Some(at) => RemoveAt(rows, at) case None => rows)
    case Rename(t, title) =>
      (match First(rows, t.chapterId)
       case Some(at) => rows[at := rows[at].(title := retitle(rows[at].title, title))]
       case None => rows)
    case Move(t, position) =>
      (match First(rows, t.chapterId)
       case None => rows
       case Some(at) =>
         var rest := RemoveAt(rows, at);
         var to := Resolve(rest, position);
         InsertAt(rest, if to.Some? then to.value else at, rows[at]))
    case _ => rows
  }

  function OverlayAll(retitle: (string, string) -> string, rows: seq<Row>, pending: seq<Op>): seq<Row>
    decreases |pending|
  {
    if pending == [] then rows
    else OverlayOne(retitle, OverlayAll(retitle, rows, pending[..|pending| - 1]), pending[|pending| - 1])
  }

  /** `overlayToniesContent` */
  method OverlayContent(retitle: (string, string) -> string, rows: seq<Row>, pending: seq<Op>) returns (shown: seq<Row>)
    ensures shown == OverlayAll(retitle, rows, pending)
  {
    shown := rows;
    var n := 0;
    while n < |pending|
      invariant 0 <= n <= |pending| && shown == OverlayAll(retitle, rows, pending[..n])
    {
      assert pending[..n + 1][..n] == pending[..n] && pending[..n + 1][n] == pending[n];
      match pending[n] {
        case Clear => shown := [];
        case Delete(t) =>
          var at := First(shown, t.chapterId);
          if at.Some? { shown := RemoveAt(shown, at.value); }
        case Rename(t, title) =>
          var at := First(shown, t.chapterId);
          if at.Some? { shown := shown[at.value := shown[at.value].(title := retitle(shown[at.value].title, title))]; }
        case Move(t, position) =>
          var at := First(shown, t.chapterId);
          if at.Some? {
            var moved := shown[at.value];
            shown := RemoveAt(shown, at.value);
            var to := Resolve(shown, position);
            shown := InsertAt(shown, if to.Some? then to.value else at.value, moved);
          }
        case _ =>
      }
      n := n + 1;
    }
    assert pending[..n] == pending;
  }

  // ---- Against the planner ----

  /** The same ids in the same order. */
  ghost predicate SameIds(rows: seq<Row>, cs: seq<Chapter>) {
    |rows| == |cs| && forall i :: 0 <= i < |cs| ==> rows[i].id == cs[i].id
  }

  /** An edit as the browser queues it: a named row, and a position that `clean_position` accepts. */
  ghost predicate QueuedEdit(op: Op) {
    match op
    case Clear => true
    case Delete(t) => Named(t)
    case Rename(t, _) => Named(t)
    case Move(t, p) => Named(t) && p != NOWHERE && (p.index.Some? ==> p.index.value >= 0)
    case _ => false
  }

  ghost predicate Named(t: Target) {
    t.chapterId != "" && t.index.None? && t.expectIndex.None?
  }

  /** The position comes down to its index: no edge, and no anchor that is there. */
  ghost predicate ByIndex(rows: seq<Row>, p: Position) {
    && p.edge.None? && p.index.Some?
    && (p.before == "" || First(rows, p.before).None?) && (p.after == "" || First(rows, p.after).None?)
  }

  /** A move by index does not point past the end, unless its row is last anyway. */
  ghost predicate InRange(rows: seq<Row>, op: Op) {
    op.Move? && First(rows, op.target.chapterId).Some? ==>
      var at := First(rows, op.target.chapterId).value;
      var rest := RemoveAt(rows, at);
      ByIndex(rest, op.position) ==> op.position.index.value <= |rest| || at == |rest|
  }

  lemma {:induction false} FirstIsFind(rows: seq<Row>, cs: seq<Chapter>, id: string)
    requires SameIds(rows, cs) && UniqueIds(cs)
    ensures First(rows, id) == Find(cs, id)
  {
    var r := First(rows, id);
    if r.Some? { assert IsOnly(cs, id, r.value); }
  }

  lemma ResolveIsInsertionIndex(rows: seq<Row>, cs: seq<Chapter>, p: Position)
    requires SameIds(rows, cs) && UniqueIds(cs) && p != NOWHERE && (p.index.Some? ==> p.index.value >= 0)
    ensures var k := InsertionIndex(cs, p, true);
      if ByIndex(rows, p) && p.index.value > |rows| then k.Failure? && Resolve(rows, p) == Some(|rows|)
      else if k.Success? then Resolve(rows, p) == Some(k.value)
      else Resolve(rows, p).None?
  {
    FirstIsFind(rows, cs, p.before);
    FirstIsFind(rows, cs, p.after);
    hide First, Find;
    if p.edge.Some? {
      match p.edge.value { case Start => assert p.edge == Some(Start); case End => assert p.edge == Some(End); }
    }
  }

  lemma SameRemove(rows: seq<Row>, cs: seq<Chapter>, i: nat)
    requires SameIds(rows, cs) && UniqueIds(cs) && i < |rows|
    ensures SameIds(RemoveAt(rows, i), RemoveAt(cs, i)) && UniqueIds(RemoveAt(cs, i))
  {
  }

  lemma SameInsert(rows: seq<Row>, cs: seq<Chapter>, i: nat, row: Row, c: Chapter)
    requires SameIds(rows, cs) && i <= |rows| && row.id == c.id
    ensures SameIds(InsertAt(rows, i, row), InsertAt(cs, i, c))
  {
  }

  lemma PutBackAtEndShows(rows: seq<Row>, cs: seq<Chapter>, at: nat)
    requires SameIds(rows, cs) && UniqueIds(cs) && at < |rows|
    ensures SameIds(InsertAt(RemoveAt(rows, at), |rows| - 1, rows[at]), cs) <==> at == |rows| - 1
  {
    var shown := InsertAt(RemoveAt(rows, at), |rows| - 1, rows[at]);
    if at == |rows| - 1 {
      InsertAtRemoveAt(rows, at);
    } else {
      assert shown[|rows| - 1].id == cs[at].id;
    }
  }

  /** Moving row `at`, by whether its new place resolves. */
  lemma PlaceShows(rows: seq<Row>, cs: seq<Chapter>, at: nat, p: Position)
    requires SameIds(rows, cs) && UniqueIds(cs) && at < |rows| == |cs| && p != NOWHERE
      && (p.index.Some? ==> p.index.value >= 0)
    ensures var rest, left := RemoveAt(rows, at), RemoveAt(cs, at);
      var shown, place := Resolve(rest, p), InsertionIndex(left, p, true);
      if place.Success? then
        && shown == Some(place.value)
        && SameIds(InsertAt(rest, place.value, rows[at]), InsertAt(left, place.value, cs[at]))
      else if shown.Some? then
        ByIndex(rest, p) && p.index.value > |rest| && shown.value == |rest|
        && (SameIds(InsertAt(rest, shown.value, rows[at]), cs) <==> at == |rows| - 1)
      else !(ByIndex(rest, p) && p.index.value > |rest|)
    ensures var rest, left := RemoveAt(rows, at), RemoveAt(cs, at);
      InsertionIndex(left, p, true).Success? ==> !(ByIndex(rest, p) && p.index.value > |rest|)
  {
    hide Resolve, InsertionIndex, ByIndex, InsertAt, RemoveAt, SameIds, UniqueIds;
    SameSize(rows, cs);
    var rest, left := RemoveAt(rows, at), RemoveAt(cs, at);
    SameRemove(rows, cs, at);
    SameSize(rest, left);
    ResolveIsInsertionIndex(rest, left, p);
    var place := InsertionIndex(left, p, true);
    if place.Success? {
      SameId(rows, cs, at);
      SameInsert(rest, left, place.value, rows[at], cs[at]);
    } else {
      PutBackAtEndShows(rows, cs, at);
    }
  }

  lemma SameSize(rows: seq<Row>, cs: seq<Chapter>)
    requires SameIds(rows, cs)
    ensures |rows| == |cs|
  {
  }

  lemma SameId(rows: seq<Row>, cs: seq<Chapter>, i: nat)
    requires SameIds(rows, cs) && i < |rows|
    ensures rows[i].id == cs[i].id
  {
  }

  lemma MoveShows(retitle: (string, string) -> string, rows: seq<Row>, rules: Rules, draft: Draft, op: Op, number: nat)
    requires SameIds(rows, draft.work) && UniqueIds(draft.work) && QueuedEdit(op) && op.Move?
    ensures SameIds(OverlayOne(retitle, rows, op), AfterOne(rules, draft, op, number).work) <==> InRange(rows, op)
  {
    hide First, Find, Resolve, InsertionIndex, ByIndex, UniqueIds, SameIds;
    FirstIsFind(rows, draft.work, op.target.chapterId);
    SameSize(rows, draft.work);
    if First(rows, op.target.chapterId).Some? {
      var at := First(rows, op.target.chapterId).value;
      PlaceShows(rows, draft.work, at, op.position);
      InsertAtRemoveAt(rows, at);
    }
  }

  /** Where they part: a move that comes down to an index past the end. The preview shows its row last, and the planner
      refuses it, so the row stays. */
  lemma {:induction false} MovePastTheEnd(retitle: (string, string) -> string, rows: seq<Row>, rules: Rules,
                                          draft: Draft, op: Op, number: nat, at: nat)
    requires SameIds(rows, draft.work) && UniqueIds(draft.work) && QueuedEdit(op) && op.Move?
    requires First(rows, op.target.chapterId) == Some(at)
    requires ByIndex(RemoveAt(rows, at), op.position) && op.position.index.value > |rows| - 1
    ensures OverlayOne(retitle, rows, op) == RemoveAt(rows, at) + [rows[at]]
    ensures ApplyOne(rules, draft, op, number) == Failure(TrackPositionInvalid)
    ensures at < |rows| - 1 ==> !SameIds(OverlayOne(retitle, rows, op), AfterOne(rules, draft, op, number).work)
  {
    hide First, Find, InsertionIndex, UniqueIds, SameIds;
    FirstIsFind(rows, draft.work, op.target.chapterId);
    SameSize(rows, draft.work);
    IndexIsRefused(rows, draft.work, at, op.position);
    MoveShows(retitle, rows, rules, draft, op, number);
    var rest := RemoveAt(rows, at);
    assert InsertAt(rest, |rest|, rows[at]) == rest + [rows[at]];
  }

  lemma IndexIsRefused(rows: seq<Row>, cs: seq<Chapter>, at: nat, p: Position)
    requires SameIds(rows, cs) && UniqueIds(cs) && at < |rows| == |cs|
    requires p != NOWHERE && ByIndex(RemoveAt(rows, at), p) && p.index.value > |rows| - 1
    ensures InsertionIndex(RemoveAt(cs, at), p, true) == Failure(TrackPositionInvalid)
    ensures Resolve(RemoveAt(rows, at), p) == Some(|rows| - 1)
  {
    var rest, left := RemoveAt(rows, at), RemoveAt(cs, at);
    SameRemove(rows, cs, at);
    SameSize(rest, left);
    FirstIsFind(rest, left, p.before);
    FirstIsFind(rest, left, p.after);
    hide First, Find, RemoveAt, SameIds, UniqueIds;
  }

  /** For example: the first of two rows, moved to before a row that is gone, with index five to fall back on. */
  lemma PreviewShowsWhatIsRefused(retitle: (string, string) -> string, rules: Rules, a: Chapter, b: Chapter)
    requires a.id != b.id && a.id != "" && a.id != "gone" && b.id != "gone"
    ensures var rows := [Row(a.id, a.title), Row(b.id, b.title)];
      var op := Move(Target(a.id, None, None), Position(None, "gone", "", Some(5)));
      && OverlayOne(retitle, rows, op) == [rows[1], rows[0]]
      && ApplyOne(rules, Draft([a, b], {}), op, 0) == Failure(TrackPositionInvalid)
  {
    var rows := [Row(a.id, a.title), Row(b.id, b.title)];
    var op := Move(Target(a.id, None, None), Position(None, "gone", "", Some(5)));
    assert First(rows, a.id) == Some(0);
    var rest := RemoveAt(rows, 0);
    assert rest == [rows[1]] && First(rest, "gone").None?;
    MovePastTheEnd(retitle, rows, rules, Draft([a, b], {}), op, 0, 0);
  }

  /** One queued edit is shown as the planner will apply it, exactly when a move by index stays in range. */
  lemma EditShows(retitle: (string, string) -> string, rows: seq<Row>, rules: Rules, draft: Draft, op: Op, number: nat)
    requires SameIds(rows, draft.work) && UniqueIds(draft.work) && QueuedEdit(op)
    ensures SameIds(OverlayOne(retitle, rows, op), AfterOne(rules, draft, op, number).work) <==> InRange(rows, op)
    ensures UniqueIds(AfterOne(rules, draft, op, number).work)
  {
    hide OverlayOne, AfterOne, UniqueIds, SameIds;
    StaysUnique(rules, draft, op, number);
    if op.Move? {
      MoveShows(retitle, rows, rules, draft, op, number);
    } else {
      OtherShows(retitle, rows, rules, draft, op, number);
    }
  }

  lemma StaysUnique(rules: Rules, draft: Draft, op: Op, number: nat)
    requires UniqueIds(draft.work) && !op.Attach?
    ensures UniqueIds(AfterOne(rules, draft, op, number).work)
  {
    hide UniqueIds;
    if ApplyOne(rules, draft, op, number).Success? { UniqueAfterOne(rules, draft, op, number); }
  }

  lemma OtherShows(retitle: (string, string) -> string, rows: seq<Row>, rules: Rules, draft: Draft, op: Op, number: nat)
    requires SameIds(rows, draft.work) && UniqueIds(draft.work) && QueuedEdit(op) && !op.Move?
    ensures SameIds(OverlayOne(retitle, rows, op), AfterOne(rules, draft, op, number).work)
  {
    hide First, Find, UniqueIds;
    if !op.Clear? {
      FirstIsFind(rows, draft.work, op.target.chapterId);
      if First(rows, op.target.chapterId).Some? {
        SameRemove(rows, draft.work, First(rows, op.target.chapterId).value);
      }
    }
  }

  ghost predicate AllInRange(retitle: (string, string) -> string, rows: seq<Row>, pending: seq<Op>) {
    forall n :: 0 <= n < |pending| ==> InRange(OverlayAll(retitle, rows, pending[..n]), pending[n])
  }

  ghost predicate Shows(retitle: (string, string) -> string, rows: seq<Row>, rules: Rules, draft: Draft,
                        pending: seq<Op>)
  {
    SameIds(OverlayAll(retitle, rows, pending), PlanFrom(rules, draft, pending, 0).draft.work)
  }

  lemma {:induction false} PlanOneMore(rules: Rules, draft: Draft, ops: seq<Op>, n: nat)
    requires n < |ops|
    ensures var head := PlanFrom(rules, draft, ops[..n], 0).draft;
      PlanFrom(rules, draft, ops[..n + 1], 0).draft == AfterOne(rules, head, ops[n], n)
  {
    var head := PlanFrom(rules, draft, ops[..n], 0).draft;
    PlanSplitsAt(rules, draft, ops[..n + 1], n);
    assert ops[..n + 1][..n] == ops[..n] && ops[..n + 1][n..] == [ops[n]] && [ops[n]][1..] == [];
    assert PlanFrom(rules, AfterOne(rules, head, ops[n], n), [], n + 1).draft == AfterOne(rules, head, ops[n], n);
  }

  lemma {:induction false} OverlayOneMore(retitle: (string, string) -> string, rows: seq<Row>, pending: seq<Op>, n: nat)
    requires n < |pending|
    ensures OverlayAll(retitle, rows, pending[..n + 1])
      == OverlayOne(retitle, OverlayAll(retitle, rows, pending[..n]), pending[n])
  {
    assert pending[..n + 1][..n] == pending[..n] && pending[..n + 1][n] == pending[n];
  }

  lemma {:induction false} PrefixShows(retitle: (string, string) -> string, rows: seq<Row>, rules: Rules, draft: Draft,
                                       pending: seq<Op>, n: nat)
    requires SameIds(rows, draft.work) && UniqueIds(draft.work) && n <= |pending|
    requires forall i :: 0 <= i < |pending| ==> QueuedEdit(pending[i])
    requires AllInRange(retitle, rows, pending)
    ensures Shows(retitle, rows, rules, draft, pending[..n])
      && UniqueIds(PlanFrom(rules, draft, pending[..n], 0).draft.work)
    decreases n
  {
    if n > 0 {
      hide QueuedEdit, InRange, PlanFrom, OverlayAll;
      PrefixShows(retitle, rows, rules, draft, pending, n - 1);
      PlanOneMore(rules, draft, pending, n - 1);
      OverlayOneMore(retitle, rows, pending, n - 1);
      EditShows(retitle, OverlayAll(retitle, rows, pending[..n - 1]), rules,
                PlanFrom(rules, draft, pending[..n - 1], 0).draft, pending[n - 1], n - 1);
    }
  }

  /** For any queued deletes, renames, moves and clears, the list shown after each of them has the ids of the plan, in
      the plan's order, exactly when every move by index is in range. */
  lemma OverlayShowsPlan(retitle: (string, string) -> string, rows: seq<Row>, rules: Rules, draft: Draft,
                         pending: seq<Op>)
    requires SameIds(rows, draft.work) && UniqueIds(draft.work)
    requires forall i :: 0 <= i < |pending| ==> QueuedEdit(pending[i])
    ensures (forall n :: 0 <= n <= |pending| ==> Shows(retitle, rows, rules, draft, pending[..n]))
            <==> AllInRange(retitle, rows, pending)
  {
    hide QueuedEdit, InRange, PlanFrom, OverlayAll, Shows;
    if AllInRange(retitle, rows, pending) {
      forall n | 0 <= n <= |pending| ensures Shows(retitle, rows, rules, draft, pending[..n]) {
        PrefixShows(retitle, rows, rules, draft, pending, n);
      }
    } else {
      var n := FirstOutOfRange(retitle, rows, pending, 0);
      DisagreesAfter(retitle, rows, rules, draft, pending, n);
      assert !Shows(retitle, rows, rules, draft, pending[..n + 1]);
    }
  }

  lemma {:induction false} FirstOutOfRange(retitle: (string, string) -> string, rows: seq<Row>, pending: seq<Op>,
                                           from: nat)
    returns (n: nat)
    requires from <= |pending| && !AllInRange(retitle, rows, pending)
    requires forall i :: 0 <= i < from ==> InRange(OverlayAll(retitle, rows, pending[..i]), pending[i])
    ensures n < |pending| && !InRange(OverlayAll(retitle, rows, pending[..n]), pending[n])
    ensures forall i :: 0 <= i < n ==> InRange(OverlayAll(retitle, rows, pending[..i]), pending[i])
    decreases |pending| - from
  {
    hide InRange, OverlayAll;
    if InRange(OverlayAll(retitle, rows, pending[..from]), pending[from]) {
      n := FirstOutOfRange(retitle, rows, pending, from + 1);
    } else {
      n := from;
    }
  }

  lemma {:induction false} DisagreesAfter(retitle: (string, string) -> string, rows: seq<Row>, rules: Rules,
                                          draft: Draft, pending: seq<Op>, n: nat)
    requires SameIds(rows, draft.work) && UniqueIds(draft.work) && n < |pending|
    requires forall i :: 0 <= i < |pending| ==> QueuedEdit(pending[i])
    requires forall i :: 0 <= i < n ==> InRange(OverlayAll(retitle, rows, pending[..i]), pending[i])
    requires !InRange(OverlayAll(retitle, rows, pending[..n]), pending[n])
    ensures !Shows(retitle, rows, rules, draft, pending[..n + 1])
  {
    hide QueuedEdit, InRange, PlanFrom, OverlayAll;
    var head := pending[..n];
    forall i | 0 <= i < n ensures InRange(OverlayAll(retitle, rows, head[..i]), head[i]) {
      assert head[..i] == pending[..i];
    }
    PrefixShows(retitle, rows, rules, draft, head, n);
    assert head[..n] == head;
    PlanOneMore(rules, draft, pending, n);
    OverlayOneMore(retitle, rows, pending, n);
    EditShows(retitle, OverlayAll(retitle, rows, head), rules, PlanFrom(rules, draft, head, 0).draft, pending[n], n);
  }

  // ---- Titles ----

  /** The rows as the browser shows them. */
  function RowsOf(cs: seq<Chapter>): (r: seq<Row>)
    ensures |r| == |cs| && forall i :: 0 <= i < |cs| ==> r[i] == Row(cs[i].id, cs[i].title)
  {
    seq(|cs|, i requires 0 <= i < |cs| => Row(cs[i].id, cs[i].title))
  }

  /** Browser and planner keep the same token: wherever the planner accepts a title, it is the one that is shown. */
  ghost predicate OneRule(retitle: (string, string) -> string, rule: TitleRule) {
    forall current, title :: rule(current, title).Some? ==> rule(current, title).value == retitle(current, title)
  }

  /** The planner accepts the title of a rename, or the rename would show none that is new. */
  ghost predicate Accepted(retitle: (string, string) -> string, rule: TitleRule, rows: seq<Row>, op: Op) {
    op.Rename? && First(rows, op.target.chapterId).Some? ==>
      var current := rows[First(rows, op.target.chapterId).value].title;
      rule(current, op.title).Some? || retitle(current, op.title) == current
  }

  lemma RowsAreSameIds(cs: seq<Chapter>)
    ensures SameIds(RowsOf(cs), cs)
  {
  }

  lemma RowsRemove(cs: seq<Chapter>, i: nat)
    requires i < |cs|
    ensures RowsOf(RemoveAt(cs, i)) == RemoveAt(RowsOf(cs), i)
  {
  }

  lemma RowsInsert(cs: seq<Chapter>, k: nat, c: Chapter)
    requires k <= |cs|
    ensures RowsOf(InsertAt(cs, k, c)) == InsertAt(RowsOf(cs), k, Row(c.id, c.title))
  {
  }

  lemma RenameShowsRows(retitle: (string, string) -> string, rules: Rules, draft: Draft, op: Op, number: nat)
    requires UniqueIds(draft.work) && QueuedEdit(op) && op.Rename? && OneRule(retitle, rules.retitle)
    ensures OverlayOne(retitle, RowsOf(draft.work), op) == RowsOf(AfterOne(rules, draft, op, number).work)
            <==> Accepted(retitle, rules.retitle, RowsOf(draft.work), op)
  {
    var rows := RowsOf(draft.work);
    RowsAreSameIds(draft.work);
    FirstIsFind(rows, draft.work, op.target.chapterId);
    hide First, Find, UniqueIds;
    if First(rows, op.target.chapterId).Some? {
      var at := First(rows, op.target.chapterId).value;
      var shown := retitle(rows[at].title, op.title);
      assert rows[at := rows[at].(title := shown)][at].title == shown;
      assert rows[at := rows[at]] == rows;
    }
  }

  lemma MoveShowsRows(retitle: (string, string) -> string, rules: Rules, draft: Draft, op: Op, number: nat)
    requires UniqueIds(draft.work) && QueuedEdit(op) && op.Move? && InRange(RowsOf(draft.work), op)
    ensures OverlayOne(retitle, RowsOf(draft.work), op) == RowsOf(AfterOne(rules, draft, op, number).work)
  {
    var rows := RowsOf(draft.work);
    RowsAreSameIds(draft.work);
    hide First, Find, Resolve, InsertionIndex, ByIndex, UniqueIds, SameIds, InsertAt, RemoveAt;
    FirstIsFind(rows, draft.work, op.target.chapterId);
    if First(rows, op.target.chapterId).Some? {
      var at := First(rows, op.target.chapterId).value;
      var place := InsertionIndex(RemoveAt(draft.work, at), op.position, true);
      PlaceShows(rows, draft.work, at, op.position);
      InsertAtRemoveAt(rows, at);
      RowsRemove(draft.work, at);
      if place.Success? { RowsInsert(RemoveAt(draft.work, at), place.value, draft.work[at]); }
    }
  }

  lemma OtherShowsRows(retitle: (string, string) -> string, rules: Rules, draft: Draft, op: Op, number: nat)
    requires UniqueIds(draft.work) && QueuedEdit(op) && (op.Clear? || op.Delete?)
    ensures OverlayOne(retitle, RowsOf(draft.work), op) == RowsOf(AfterOne(rules, draft, op, number).work)
  {
    if op.Delete? {
      var rows := RowsOf(draft.work);
      RowsAreSameIds(draft.work);
      FirstIsFind(rows, draft.work, op.target.chapterId);
      hide First, Find, UniqueIds;
      if First(rows, op.target.chapterId).Some? { RowsRemove(draft.work, First(rows, op.target.chapterId).value); }
    }
  }

  /** One queued edit shows the planner's ids and titles exactly when a move by index is in range and the planner
      accepts a rename's title. */
  lemma EditShowsRows(retitle: (string, string) -> string, rules: Rules, draft: Draft, op: Op, number: nat)
    requires UniqueIds(draft.work) && QueuedEdit(op) && OneRule(retitle, rules.retitle)
    ensures OverlayOne(retitle, RowsOf(draft.work), op) == RowsOf(AfterOne(rules, draft, op, number).work)
            <==> InRange(RowsOf(draft.work), op) && Accepted(retitle, rules.retitle, RowsOf(draft.work), op)
    ensures UniqueIds(AfterOne(rules, draft, op, number).work)
  {
    hide OverlayOne, AfterOne, UniqueIds, First, ByIndex, SameIds;
    RowsAreSameIds(draft.work);
    RowsAreSameIds(AfterOne(rules, draft, op, number).work);
    EditShows(retitle, RowsOf(draft.work), rules, draft, op, number);
    if op.Rename? {
      RenameShowsRows(retitle, rules, draft, op, number);
    } else if op.Move? {
      if InRange(RowsOf(draft.work), op) { MoveShowsRows(retitle, rules, draft, op, number); }
    } else {
      OtherShowsRows(retitle, rules, draft, op, number);
    }
  }

  /** Every queued edit is in range and accepted, on the list shown before it. */
  ghost predicate AllTaken(retitle: (string, string) -> string, rule: TitleRule, rows: seq<Row>, pending: seq<Op>) {
    forall n :: 0 <= n < |pending| ==> Taken(retitle, rule, OverlayAll(retitle, rows, pending[..n]), pending[n])
  }

  ghost predicate Taken(retitle: (string, string) -> string, rule: TitleRule, rows: seq<Row>, op: Op) {
    InRange(rows, op) && Accepted(retitle, rule, rows, op)
  }

  /** The list shown has the ids and the titles of the plan. */
  ghost predicate ShowsRows(retitle: (string, string) -> string, rules: Rules, draft: Draft, pending: seq<Op>) {
    OverlayAll(retitle, RowsOf(draft.work), pending) == RowsOf(PlanFrom(rules, draft, pending, 0).draft.work)
  }

  lemma OneMoreShowsRows(retitle: (string, string) -> string, rules: Rules, draft: Draft, pending: seq<Op>, n: nat)
    requires n < |pending| && OneRule(retitle, rules.retitle) && QueuedEdit(pending[n])
    requires ShowsRows(retitle, rules, draft, pending[..n])
    requires UniqueIds(PlanFrom(rules, draft, pending[..n], 0).draft.work)
    ensures ShowsRows(retitle, rules, draft, pending[..n + 1])
            <==> Taken(retitle, rules.retitle, OverlayAll(retitle, RowsOf(draft.work), pending[..n]), pending[n])
    ensures UniqueIds(PlanFrom(rules, draft, pending[..n + 1], 0).draft.work)
  {
    hide QueuedEdit, InRange, Accepted, PlanFrom, OverlayAll, OneRule, UniqueIds;
    PlanOneMore(rules, draft, pending, n);
    OverlayOneMore(retitle, RowsOf(draft.work), pending, n);
    EditShowsRows(retitle, rules, PlanFrom(rules, draft, pending[..n], 0).draft, pending[n], n);
  }

  lemma {:induction false} PrefixShowsRows(retitle: (string, string) -> string, rules: Rules, draft: Draft,
                                           pending: seq<Op>, n: nat)
    requires UniqueIds(draft.work) && n <= |pending| && OneRule(retitle, rules.retitle)
    requires forall i :: 0 <= i < |pending| ==> QueuedEdit(pending[i])
    requires forall i :: 0 <= i < n ==>
      Taken(retitle, rules.retitle, OverlayAll(retitle, RowsOf(draft.work), pending[..i]), pending[i])
    ensures ShowsRows(retitle, rules, draft, pending[..n])
    ensures UniqueIds(PlanFrom(rules, draft, pending[..n], 0).draft.work)
    decreases n
  {
    hide QueuedEdit, Taken, PlanFrom, OverlayAll, OneRule, UniqueIds, ShowsRows;
    if n == 0 {
      assert pending[..0] == [];
      NothingShownRows(retitle, rules, draft);
    } else {
      PrefixShowsRows(retitle, rules, draft, pending, n - 1);
      OneMoreShowsRows(retitle, rules, draft, pending, n - 1);
    }
  }

  lemma {:induction false} NothingShownRows(retitle: (string, string) -> string, rules: Rules, draft: Draft)
    ensures ShowsRows(retitle, rules, draft, []) && PlanFrom(rules, draft, [], 0).draft == draft
  {
  }

  /** Under one title rule, the list shown after each queued edit has the ids and the titles of the plan, in its order,
      exactly when every move by index is in range and the planner accepts every new title. */
  lemma OverlayShowsTitles(retitle: (string, string) -> string, rules: Rules, draft: Draft, pending: seq<Op>)
    requires UniqueIds(draft.work) && OneRule(retitle, rules.retitle)
    requires forall i :: 0 <= i < |pending| ==> QueuedEdit(pending[i])
    ensures (forall n :: 0 <= n <= |pending| ==> ShowsRows(retitle, rules, draft, pending[..n]))
            <==> AllTaken(retitle, rules.retitle, RowsOf(draft.work), pending)
  {
    hide QueuedEdit, Taken, PlanFrom, OverlayAll, ShowsRows, OneRule, UniqueIds;
    if AllTaken(retitle, rules.retitle, RowsOf(draft.work), pending) {
      forall n | 0 <= n <= |pending| ensures ShowsRows(retitle, rules, draft, pending[..n]) {
        PrefixShowsRows(retitle, rules, draft, pending, n);
      }
    } else {
      var n := FirstRefused(retitle, rules.retitle, RowsOf(draft.work), pending, 0);
      PrefixShowsRows(retitle, rules, draft, pending, n);
      OneMoreShowsRows(retitle, rules, draft, pending, n);
      assert !ShowsRows(retitle, rules, draft, pending[..n + 1]);
    }
  }

  lemma {:induction false} FirstRefused(retitle: (string, string) -> string, rule: TitleRule, rows: seq<Row>,
                                        pending: seq<Op>, from: nat)
    returns (n: nat)
    requires from <= |pending| && !AllTaken(retitle, rule, rows, pending)
    requires forall i :: 0 <= i < from ==> Taken(retitle, rule, OverlayAll(retitle, rows, pending[..i]), pending[i])
    ensures n < |pending| && !Taken(retitle, rule, OverlayAll(retitle, rows, pending[..n]), pending[n])
    ensures forall i :: 0 <= i < n ==> Taken(retitle, rule, OverlayAll(retitle, rows, pending[..i]), pending[i])
    decreases |pending| - from
  {
    hide Taken, OverlayAll;
    if Taken(retitle, rule, OverlayAll(retitle, rows, pending[..from]), pending[from]) {
      n := FirstRefused(retitle, rule, rows, pending, from + 1);
    } else {
      n := from;
    }
  }

  // ---- Dragging ----

  lemma {:induction false} FirstOfUnique(rows: seq<Row>, i: nat)
    requires UniqueRows(rows) && i < |rows|
    ensures First(rows, rows[i].id) == Some(i)
  {
    if i > 0 { FirstOfUnique(rows[1..], i - 1); }
  }

  /** A position built for an index resolves back to that index. */
  lemma ResolveInvertsPositionAt(rows: seq<Row>, index: int)
    requires UniqueRows(rows)
    ensures Resolve(rows, PositionAt(rows, index)) == Some(Clamp(index, |rows|))
  {
    if 0 < index < |rows| { FirstOfUnique(rows, index); }
  }

  lemma UniqueRest(rows: seq<Row>, from: nat)
    requires UniqueRows(rows) && from < |rows|
    ensures UniqueRows(RemoveAt(rows, from))
  {
  }

  /** `reorderToniesChapter`: the edit a drag queues. */
  function Drag(rows: seq<Row>, from: nat, to: nat): Op
    requires from < |rows| && to < |rows|
  {
    Move(Target(rows[from].id, None, None), PositionAt(RemoveAt(rows, from), to))
  }

  /** A drag shows the dragged row at the index it was dropped on, and every other row in its old order. */
  lemma DragLands(retitle: (string, string) -> string, rows: seq<Row>, from: nat, to: nat)
    requires UniqueRows(rows) && from < |rows| && to < |rows|
    ensures var shown := OverlayOne(retitle, rows, Drag(rows, from, to));
      && |shown| == |rows| && shown[to] == rows[from] && RemoveAt(shown, to) == RemoveAt(rows, from)
  {
    hide First, Resolve, PositionAt, UniqueRows;
    FirstOfUnique(rows, from);
    var rest := RemoveAt(rows, from);
    UniqueRest(rows, from);
    ResolveInvertsPositionAt(rest, to);
    RemoveAtInsertAt(rest, to, rows[from]);
  }

  /** The planner puts it there too, and never refuses the move. */
  lemma DragIsPlanned(rules: Rules, draft: Draft, rows: seq<Row>, from: nat, to: nat, number: nat)
    requires SameIds(rows, draft.work) && UniqueIds(draft.work) && from < |rows| && to < |rows| && rows[from].id != ""
    ensures var r := ApplyOne(rules, draft, Drag(rows, from, to), number);
      r.Success? && r.value.work == InsertAt(RemoveAt(draft.work, from), to, draft.work[from])
  {
    var rest, left := RemoveAt(rows, from), RemoveAt(draft.work, from);
    SameRemove(rows, draft.work, from);
    FirstOfUnique(rows, from);
    FirstIsFind(rows, draft.work, rows[from].id);
    ResolveInvertsPositionAt(rest, to);
    ResolveIsInsertionIndex(rest, left, PositionAt(rest, to));
  }
}
