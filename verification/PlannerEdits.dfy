/** What each edit writes into the list, and how titles follow their rows through a batch. */
module PlannerEdits {
  import opened Lists
  import opened Planner
  import opened PlannerLaws

  // ---- Which row an edit names ----

  /** Row `i` is the one an edit refers to: the only row with the id, or the row with the number if there is no id. */
  ghost predicate Meant(work: seq<Chapter>, t: Target, i: int) {
    if t.chapterId != "" then IsOnly(work, t.chapterId, i) else t.index == Some(i) && 0 <= i < |work|
  }

  /** And it is at the number the client expects, if it expects one. */
  ghost predicate Names(work: seq<Chapter>, t: Target, i: int) {
    Meant(work, t, i) && (t.expectIndex.None? || t.expectIndex == Some(i))
  }

  /** `_target` finds exactly the row that is named, and says which of the three ways it is not. */
  lemma TargetIsNamed(work: seq<Chapter>, t: Target)
    ensures forall i: nat :: TargetRow(work, t) == Success(i) <==> Names(work, t, i)
    ensures TargetRow(work, t) == Failure(TrackGone) <==> t.chapterId != "" && !exists i :: IsOnly(work, t.chapterId, i)
    ensures TargetRow(work, t) == Failure(TrackPositionInvalid) <==> t.chapterId == "" && !exists i :: Meant(work, t, i)
    ensures TargetRow(work, t) == Failure(TrackPositionStale) <==> exists i :: Meant(work, t, i) && !Names(work, t, i)
  {
    if t.chapterId == "" && t.index.Some? && 0 <= t.index.value < |work| { assert Meant(work, t, t.index.value); }
    if t.chapterId != "" && Find(work, t.chapterId).Some? { assert Meant(work, t, Find(work, t.chapterId).value); }
  }

  // ---- One rename ----

  /** A rename gives the named row, and no other, the title that the rule makes of its own old title; it fails for the
      title exactly when the rule refuses that. */
  lemma RenameWrites(rules: Rules, draft: Draft, t: Target, title: string, number: nat, i: nat)
    requires Names(draft.work, t, i)
    ensures i < |draft.work|
    ensures var given := rules.retitle(draft.work[i].title, title);
      var after := AfterOne(rules, draft, Rename(t, title), number);
      && after.titles == draft.titles && |after.work| == |draft.work|
      && (forall j :: 0 <= j < |draft.work| && j != i ==> after.work[j] == draft.work[j])
      && (given.Some? ==> after.work[i] == draft.work[i].(title := given.value))
      && ErrorOf(rules, draft, Rename(t, title), number) == if given.Some? then None else Some(TitleEmpty)
  {
    TargetIsNamed(draft.work, t);
    hide TargetRow, Names;
  }

  // ---- The other edits ----

  /** Where a row lands in `rest`, the list without it: at an edge; before, or after, the only row with the anchor's id;
      or, if no anchor is there, at the index, which a move takes as it is and an upload brings into range. */
  ghost predicate Lands(rest: seq<Chapter>, p: Position, strict: bool, k: int) {
    if p == NOWHERE || p.edge == Some(End) then k == |rest|
    else if p.edge == Some(Start) then k == 0
    else if IsThere(rest, p.before) then IsOnly(rest, p.before, k)
    else if IsThere(rest, p.after) then IsOnly(rest, p.after, k - 1)
    else
      && p.index.Some?
      && (if 0 <= p.index.value <= |rest| then k == p.index.value
          else !strict && k == if p.index.value < 0 then 0 else |rest|)
  }

  ghost predicate IsThere(cs: seq<Chapter>, id: string) {
    id != "" && exists i :: IsOnly(cs, id, i)
  }

  lemma LandsAt(rest: seq<Chapter>, p: Position, strict: bool)
    ensures var k := InsertionIndex(rest, p, strict); k.Success? ==> Lands(rest, p, strict, k.value)
  {
    if p.edge.Some? {
      match p.edge.value { case Start => assert p.edge == Some(Start); case End => assert p.edge == Some(End); }
    }
    if Find(rest, p.before).None? { assert !IsThere(rest, p.before); }
    if Find(rest, p.after).None? { assert !IsThere(rest, p.after); }
  }

  /** What a successful delete, move, upload or clear does to the list. */
  ghost predicate Writes(before: seq<Chapter>, op: Op, number: nat, after: seq<Chapter>) {
    match op
    case Clear => after == []
    case Delete(t) => exists i: nat :: i < |before| && Names(before, t, i) && after == before[..i] + before[i + 1..]
    case Move(t, p) => exists i: nat :: i < |before| && Names(before, t, i) && Relocates(before, i, p, after)
    case Attach(fileId, title, seconds, p) =>
      exists k: nat :: k <= |before| && Lands(before, p, false, k)
        && after == before[..k] + [Chapter(fileId, title, fileId, seconds, "file", Idle, Some(number))] + before[k..]
    case _ => false
  }

  ghost predicate Relocates(before: seq<Chapter>, i: nat, p: Position, after: seq<Chapter>)
    requires i < |before|
  {
    var rest := before[..i] + before[i + 1..];
    exists k: nat :: k <= |rest| && Lands(rest, p, true, k) && after == rest[..k] + [before[i]] + rest[k..]
  }

  /** A successful edit writes exactly that, and an edit that is refused writes nothing. */
  lemma EditWrites(rules: Rules, draft: Draft, op: Op, number: nat)
    requires !op.Rename?
    ensures if ErrorOf(rules, draft, op, number).None?
            then Writes(draft.work, op, number, AfterOne(rules, draft, op, number).work)
            else AfterOne(rules, draft, op, number) == draft
  {
    if ErrorOf(rules, draft, op, number).None? {
      hide InsertionIndex, TargetRow, Names, Lands, TotalSeconds;
      match op {
        case Clear =>
        case Delete(t) =>
          TargetIsNamed(draft.work, t);
          var i := TargetRow(draft.work, t).value;
          assert Names(draft.work, t, i);
        case Move(t, p) =>
          TargetIsNamed(draft.work, t);
          var i := TargetRow(draft.work, t).value;
          assert Names(draft.work, t, i);
          var rest := RemoveAt(draft.work, i);
          LandsAt(rest, p, true);
          var k := InsertionIndex(rest, p, true).value;
          assert Lands(rest, p, true, k);
          assert Relocates(draft.work, i, p, AfterOne(rules, draft, op, number).work);
        case Attach(_, _, _, p) =>
          LandsAt(draft.work, p, false);
          var k := InsertionIndex(draft.work, p, false).value;
          assert Lands(draft.work, p, false, k);
      }
    }
  }

  // ---- Titles through a batch ----

  /** No two rows hold the same audio under the same id. */
  ghost predicate Apart(cs: seq<Chapter>) {
    forall i, j :: 0 <= i < j < |cs| ==> !SameAudio(cs[i], cs[j])
  }

  ghost predicate MarksBelow(cs: seq<Chapter>, number: nat) {
    forall i :: 0 <= i < |cs| && cs[i].mark.Some? ==> cs[i].mark.value < number
  }

  lemma UniqueIsApart(cs: seq<Chapter>)
    requires UniqueIds(cs)
    ensures Apart(cs)
  {
    forall i, j | 0 <= i < j < |cs| ensures !SameAudio(cs[i], cs[j]) {
      assert cs[i].(title := "").id != cs[j].(title := "").id;
    }
  }

  lemma SameAudioChain(a: Chapter, b: Chapter, c: Chapter)
    ensures SameAudio(a, a) && (SameAudio(a, b) <==> SameAudio(b, a))
    ensures SameAudio(a, b) && SameAudio(b, c) ==> SameAudio(a, c)
  {
  }

  /** The op is a rename that succeeds and names the row of `c`. */
  ghost predicate Retitles(rules: Rules, draft: Draft, op: Op, number: nat, c: Chapter) {
    && op.Rename? && ErrorOf(rules, draft, op, number).None?
    && exists i :: Names(draft.work, op.target, i) && SameAudio(draft.work[i], c)
  }

  /** One rename's effect on a title. */
  function Given(retitle: TitleRule, current: string, op: Op): string
    requires op.Rename?
  {
    var given := retitle(current, op.title);
    if given.Some? then given.value else current
  }

  /** A title folded through the successful renames that name the row of `c`. */
  ghost function Folded(rules: Rules, draft: Draft, ops: seq<Op>, number: nat, c: Chapter, title: string): string
    decreases ops
  {
    if ops == [] then title
    else
      Folded(rules, AfterOne(rules, draft, ops[0], number), ops[1..], number + 1, c,
             if Retitles(rules, draft, ops[0], number, c) then Given(rules.retitle, title, ops[0]) else title)
  }

  /** Row `r` after one op is row `i` from before it, under the title the op leaves it. */
  ghost predicate Keeps(rules: Rules, draft: Draft, op: Op, number: nat, r: Chapter, i: int) {
    && 0 <= i < |draft.work| && SameAudio(draft.work[i], r)
    && r.title == (if Retitles(rules, draft, op, number, r) then Given(rules.retitle, draft.work[i].title, op)
                   else draft.work[i].title)
  }

  ghost predicate Kept(rules: Rules, draft: Draft, op: Op, number: nat, r: Chapter) {
    exists i :: Keeps(rules, draft, op, number, r, i)
  }

  ghost predicate Added(rules: Rules, draft: Draft, op: Op, number: nat, r: Chapter) {
    op.Attach? && ErrorOf(rules, draft, op, number).None? && r == NewChapter(op, number)
  }

  lemma RowAfterRename(rules: Rules, draft: Draft, op: Op, number: nat, j: nat)
    requires Apart(draft.work) && op.Rename? && ErrorOf(rules, draft, op, number).None?
    requires j < |AfterOne(rules, draft, op, number).work|
    ensures Kept(rules, draft, op, number, AfterOne(rules, draft, op, number).work[j])
  {
    var r := AfterOne(rules, draft, op, number).work[j];
    var i := TargetRow(draft.work, op.target).value;
    TargetIsNamed(draft.work, op.target);
    RenameWrites(rules, draft, op.target, op.title, number, i);
    hide ApplyOne, TargetRow, Names;
    SameAudioChain(draft.work[j], draft.work[j], draft.work[j]);
    assert SameAudio(draft.work[j], r);
    if j == i {
      assert Retitles(rules, draft, op, number, r);
    } else {
      forall k | Names(draft.work, op.target, k) ensures 0 <= k < |draft.work| && !SameAudio(draft.work[k], r) {
        TargetRowIsOne(draft.work, op.target, i, k);
        SameAudioChain(draft.work[i], r, draft.work[j]);
        SameAudioChain(r, draft.work[j], r);
        SameAudioChain(draft.work[j], draft.work[i], draft.work[j]);
      }
    }
    assert Keeps(rules, draft, op, number, r, j);
  }

  lemma TargetRowIsOne(work: seq<Chapter>, t: Target, i: nat, k: int)
    requires Names(work, t, i) && Names(work, t, k)
    ensures i == k
  {
  }

  lemma UntouchedIsKept(rules: Rules, draft: Draft, op: Op, number: nat, r: Chapter)
    requires r in draft.work && !(op.Rename? && ErrorOf(rules, draft, op, number).None?)
    ensures Kept(rules, draft, op, number, r)
  {
    hide ErrorOf;
    var i :| 0 <= i < |draft.work| && draft.work[i] == r;
    SameAudioChain(r, r, r);
    assert Keeps(rules, draft, op, number, r, i);
  }

  /** Every row after one op was there before it, or was just attached. */
  lemma RowAfterOne(rules: Rules, draft: Draft, op: Op, number: nat, j: nat)
    requires Apart(draft.work) && j < |AfterOne(rules, draft, op, number).work|
    ensures var r := AfterOne(rules, draft, op, number).work[j];
      Kept(rules, draft, op, number, r) || Added(rules, draft, op, number, r)
  {
    hide InsertionIndex, TargetRow, AttachChecks, Kept, Retitles, Apart, NewChapter;
    var r := AfterOne(rules, draft, op, number).work[j];
    if op.Rename? && ErrorOf(rules, draft, op, number).None? {
      RowAfterRename(rules, draft, op, number, j);
    } else if r in draft.work {
      UntouchedIsKept(rules, draft, op, number, r);
    } else {
      assert op.Attach?;
    }
  }

  lemma ApartRemove(cs: seq<Chapter>, i: nat)
    requires Apart(cs) && i < |cs|
    ensures Apart(RemoveAt(cs, i)) && forall j :: 0 <= j < |cs| - 1 ==> !SameAudio(RemoveAt(cs, i)[j], cs[i])
  {
    hide SameAudio;
    forall j | 0 <= j < |cs| - 1 ensures !SameAudio(RemoveAt(cs, i)[j], cs[i]) {
      var k := if j < i then j else j + 1;
      SameAudioChain(cs[i], cs[k], cs[k]);
    }
  }

  lemma ApartInsert(cs: seq<Chapter>, k: nat, c: Chapter)
    requires Apart(cs) && k <= |cs| && forall j :: 0 <= j < |cs| ==> !SameAudio(cs[j], c)
    ensures Apart(InsertAt(cs, k, c))
  {
    hide SameAudio;
    forall i, j | 0 <= i < j < |cs| + 1 ensures !SameAudio(InsertAt(cs, k, c)[i], InsertAt(cs, k, c)[j]) {
      if i == k { SameAudioChain(c, cs[j - 1], c); }
    }
  }

  lemma ApartRename(cs: seq<Chapter>, i: nat, title: string)
    requires Apart(cs) && i < |cs|
    ensures Apart(cs[i := cs[i].(title := title)])
  {
    var after := cs[i := cs[i].(title := title)];
    forall j, k | 0 <= j < k < |cs| ensures !SameAudio(after[j], after[k]) {
      assert after[j].(title := "") == cs[j].(title := "") && after[k].(title := "") == cs[k].(title := "");
    }
  }

  lemma NewIsApart(cs: seq<Chapter>, op: Op, number: nat)
    requires MarksBelow(cs, number) && op.Attach?
    ensures forall j :: 0 <= j < |cs| ==> !SameAudio(cs[j], NewChapter(op, number))
  {
    forall j | 0 <= j < |cs| ensures !SameAudio(cs[j], NewChapter(op, number)) {
      assert cs[j].(title := "").mark == cs[j].mark != Some(number);
      assert NewChapter(op, number).(title := "").mark == Some(number);
    }
  }

  lemma ApartAfterOne(rules: Rules, draft: Draft, op: Op, number: nat)
    requires Apart(draft.work) && MarksBelow(draft.work, number)
    ensures Apart(AfterOne(rules, draft, op, number).work)
    ensures MarksBelow(AfterOne(rules, draft, op, number).work, number + 1)
  {
    var work := draft.work;
    if ApplyOne(rules, draft, op, number).Success? {
      hide Apart, SameAudio;
      match op {
        case Clear => NothingIsApart();
        case Delete(t) => ApartRemove(work, TargetRow(work, t).value);
        case Rename(t, title) =>
          var i := TargetRow(work, t).value;
          ApartRename(work, i, rules.retitle(work[i].title, title).value);
        case Move(t, p) =>
          var i := TargetRow(work, t).value;
          ApartRemove(work, i);
          ApartInsert(RemoveAt(work, i), InsertionIndex(RemoveAt(work, i), p, true).value, work[i]);
        case Attach(_, _, _, _) =>
          NewIsApart(work, op, number);
          ApartInsert(work, AttachChecks(rules, draft, op).value, NewChapter(op, number));
      }
    }
  }

  lemma NothingIsApart()
    ensures Apart([])
  {
  }

  /** A planned row is an old one, under its old title folded through the renames that name it. */
  ghost predicate TitledFromOld(rules: Rules, draft: Draft, ops: seq<Op>, number: nat, c: Chapter) {
    exists i :: 0 <= i < |draft.work| && SameAudio(draft.work[i], c)
      && c.title == Folded(rules, draft, ops, number, c, draft.work[i].title)
  }

  /** Or it was attached by op `k` of the batch, and that op's title is folded through the renames after it. */
  ghost predicate TitledFromAttach(rules: Rules, draft: Draft, ops: seq<Op>, number: nat, c: Chapter) {
    && c.mark.Some? && number <= c.mark.value < number + |ops|
    && var k := c.mark.value - number;
       && ops[k].Attach? && PlanFrom(rules, draft, ops, number).errors[k].None?
       && SameAudio(c, NewChapter(ops[k], c.mark.value))
       && c.title == Folded(rules, PlanFrom(rules, draft, ops[..k + 1], number).draft, ops[k + 1..], number + k + 1, c,
                            ops[k].title)
  }

  lemma {:induction false} FoldedOneMore(rules: Rules, draft: Draft, ops: seq<Op>, number: nat, c: Chapter, r: Chapter)
    requires ops != [] && Kept(rules, draft, ops[0], number, r) && SameAudio(r, c)
    requires c.title == Folded(rules, AfterOne(rules, draft, ops[0], number), ops[1..], number + 1, c, r.title)
    ensures TitledFromOld(rules, draft, ops, number, c)
  {
    hide ApplyOne, AfterOne, ErrorOf, Names, SameAudio;
    var i :| Keeps(rules, draft, ops[0], number, r, i);
    SameAudioChain(draft.work[i], r, c);
    SameRowRetitled(rules, draft, ops[0], number, r, c);
    assert Folded(rules, draft, ops, number, c, draft.work[i].title)
      == Folded(rules, AfterOne(rules, draft, ops[0], number), ops[1..], number + 1, c, r.title);
  }

  lemma SameRowRetitled(rules: Rules, draft: Draft, op: Op, number: nat, r: Chapter, c: Chapter)
    requires SameAudio(r, c)
    ensures Retitles(rules, draft, op, number, r) <==> Retitles(rules, draft, op, number, c)
  {
    hide ErrorOf, Names;
    if op.Rename? {
      forall i | Names(draft.work, op.target, i) && 0 <= i < |draft.work|
        ensures SameAudio(draft.work[i], r) <==> SameAudio(draft.work[i], c)
      {
        SameAudioChain(draft.work[i], r, c);
        SameAudioChain(r, c, c);
        SameAudioChain(draft.work[i], c, r);
      }
      forall i | Names(draft.work, op.target, i) ensures 0 <= i < |draft.work| { NamedIsRow(draft.work, op.target, i); }
    }
  }

  lemma NamedIsRow(work: seq<Chapter>, t: Target, i: int)
    requires Names(work, t, i)
    ensures 0 <= i < |work|
  {
  }

  lemma {:induction false} AddedIsTitled(rules: Rules, draft: Draft, ops: seq<Op>, number: nat, c: Chapter, r: Chapter)
    requires ops != [] && Added(rules, draft, ops[0], number, r) && SameAudio(r, c)
    requires c.title == Folded(rules, AfterOne(rules, draft, ops[0], number), ops[1..], number + 1, c, r.title)
    ensures TitledFromAttach(rules, draft, ops, number, c)
  {
    hide ApplyOne, AfterOne, ErrorOf, Folded;
    assert r.(title := "").mark == c.(title := "").mark;
    assert ops[..1] == [ops[0]] && [ops[0]][1..] == [];
    PlanNext(rules, draft, ops, number, 0);
    assert ops[..0] == [];
    NothingPlanned(rules, draft, number);
    SameAudioChain(r, c, c);
  }

  lemma LaterIsTitled(rules: Rules, draft: Draft, ops: seq<Op>, number: nat, c: Chapter)
    requires ops != []
    requires TitledFromAttach(rules, AfterOne(rules, draft, ops[0], number), ops[1..], number + 1, c)
    ensures TitledFromAttach(rules, draft, ops, number, c)
  {
    hide ApplyOne, AfterOne, ErrorOf, Folded, SameAudio;
    var next := AfterOne(rules, draft, ops[0], number);
    var k := c.mark.value - number;
    assert ops[1..][k - 1] == ops[k] && ops[1..][k..] == ops[k + 1..];
    assert ops[..k + 1][1..] == ops[1..][..k] && ops[..k + 1][0] == ops[0];
    assert PlanFrom(rules, draft, ops, number).errors[1..] == PlanFrom(rules, next, ops[1..], number + 1).errors;
  }

  /** Over a batch, the title of every planned row is its old title, or the title it was attached under, folded through
      exactly the successful renames that name it. */
  lemma {:induction false} TitlesFollowRenames(rules: Rules, draft: Draft, ops: seq<Op>, number: nat, c: Chapter)
    requires Apart(draft.work) && MarksBelow(draft.work, number)
    requires c in PlanFrom(rules, draft, ops, number).draft.work
    ensures TitledFromOld(rules, draft, ops, number, c) || TitledFromAttach(rules, draft, ops, number, c)
    decreases ops
  {
    hide ApplyOne, AfterOne, ErrorOf, Apart, MarksBelow, Names, Kept, Added, TitledFromAttach, Retitles;
    if ops == [] {
      var i :| 0 <= i < |draft.work| && draft.work[i] == c;
      SameAudioChain(c, c, c);
      assert Folded(rules, draft, ops, number, c, draft.work[i].title) == c.title;
    } else {
      hide SameAudio;
      var next := AfterOne(rules, draft, ops[0], number);
      ApartAfterOne(rules, draft, ops[0], number);
      TitlesFollowRenames(rules, next, ops[1..], number + 1, c);
      if TitledFromOld(rules, next, ops[1..], number + 1, c) {
        var j :| 0 <= j < |next.work| && SameAudio(next.work[j], c)
          && c.title == Folded(rules, next, ops[1..], number + 1, c, next.work[j].title);
        RowAfterOne(rules, draft, ops[0], number, j);
        if Kept(rules, draft, ops[0], number, next.work[j]) {
          FoldedOneMore(rules, draft, ops, number, c, next.work[j]);
        } else {
          AddedIsTitled(rules, draft, ops, number, c, next.work[j]);
        }
      } else {
        LaterIsTitled(rules, draft, ops, number, c);
      }
    }
  }

  // ---- Titles by id ----

  /** A title folded through the successful renames that name this id. */
  function Titled(retitle: TitleRule, id: string, ops: seq<Op>, errors: seq<Option<OpError>>, title: string): string
    requires |errors| == |ops|
    decreases ops
  {
    if ops == [] then title
    else
      Titled(retitle, id, ops[1..], errors[1..],
             if ops[0].Rename? && errors[0].None? && ops[0].target.chapterId == id then Given(retitle, title, ops[0])
             else title)
  }

  /** Renames as the queue builds them: by id. */
  ghost predicate RenamesById(ops: seq<Op>) {
    forall k :: 0 <= k < |ops| && ops[k].Rename? ==> ops[k].target.chapterId != ""
  }

  /** The row of `c` is on the list. */
  ghost predicate Present(cs: seq<Chapter>, c: Chapter) {
    exists i :: 0 <= i < |cs| && SameAudio(cs[i], c)
  }

  lemma RetitledById(rules: Rules, draft: Draft, op: Op, number: nat, c: Chapter)
    requires Present(draft.work, c) && op.Rename? && op.target.chapterId != ""
    ensures Retitles(rules, draft, op, number, c)
            <==> ErrorOf(rules, draft, op, number).None? && op.target.chapterId == c.id
  {
    hide ApplyOne;
    SameIdOfRow(draft.work, c);
    if Retitles(rules, draft, op, number, c) {
      var i :| Names(draft.work, op.target, i) && SameAudio(draft.work[i], c);
      assert draft.work[i].id == op.target.chapterId;
    }
    if ErrorOf(rules, draft, op, number).None? && op.target.chapterId == c.id {
      NamedWhenDone(rules, draft, op, number);
      var i: nat :| Names(draft.work, op.target, i);
      var j :| 0 <= j < |draft.work| && SameAudio(draft.work[j], c);
      assert draft.work[j].id == c.id;
    }
  }

  lemma SameIdOfRow(cs: seq<Chapter>, c: Chapter)
    ensures forall i :: 0 <= i < |cs| && SameAudio(cs[i], c) ==> cs[i].id == c.id && cs[i].mark == c.mark
  {
    forall i | 0 <= i < |cs| && SameAudio(cs[i], c) ensures cs[i].id == c.id && cs[i].mark == c.mark {
      assert cs[i].(title := "").id == c.(title := "").id && cs[i].(title := "").mark == c.(title := "").mark;
    }
  }

  lemma NamedWhenDone(rules: Rules, draft: Draft, op: Op, number: nat)
    requires op.Rename? && ErrorOf(rules, draft, op, number).None?
    ensures exists i: nat :: Names(draft.work, op.target, i)
  {
    TargetIsNamed(draft.work, op.target);
    assert Names(draft.work, op.target, TargetRow(draft.work, op.target).value);
  }

  /** A row that is on the list before the batch and after it is there all along. */
  lemma StaysPresent(rules: Rules, draft: Draft, ops: seq<Op>, number: nat, c: Chapter)
    requires ops != [] && MarksBelow(draft.work, number) && Present(draft.work, c)
    requires c in PlanFrom(rules, draft, ops, number).draft.work
    ensures Present(AfterOne(rules, draft, ops[0], number).work, c)
    ensures c in PlanFrom(rules, AfterOne(rules, draft, ops[0], number), ops[1..], number + 1).draft.work
  {
    hide AfterOne, SameAudio;
    SameIdOfRow(draft.work, c);
    RowsAreConserved(rules, AfterOne(rules, draft, ops[0], number), ops[1..], number + 1, c);
  }

  lemma {:induction false} FoldedById(rules: Rules, draft: Draft, ops: seq<Op>, number: nat, c: Chapter, title: string)
    requires Apart(draft.work) && MarksBelow(draft.work, number) && Present(draft.work, c) && RenamesById(ops)
    requires c in PlanFrom(rules, draft, ops, number).draft.work
    ensures Folded(rules, draft, ops, number, c, title)
            == Titled(rules.retitle, c.id, ops, PlanFrom(rules, draft, ops, number).errors, title)
    decreases ops
  {
    hide ApplyOne, AfterOne, ErrorOf, Retitles, Apart, MarksBelow, Present;
    if ops != [] {
      var next := AfterOne(rules, draft, ops[0], number);
      ApartAfterOne(rules, draft, ops[0], number);
      StaysPresent(rules, draft, ops, number, c);
      if ops[0].Rename? {
        RetitledById(rules, draft, ops[0], number, c);
      } else {
        OnlyRenames(rules, draft, ops[0], number, c);
      }
      var retitled := if Retitles(rules, draft, ops[0], number, c) then Given(rules.retitle, title, ops[0]) else title;
      FoldedById(rules, next, ops[1..], number + 1, c, retitled);
      assert PlanFrom(rules, draft, ops, number).errors[1..] == PlanFrom(rules, next, ops[1..], number + 1).errors;
    }
  }

  lemma OnlyRenames(rules: Rules, draft: Draft, op: Op, number: nat, c: Chapter)
    requires !op.Rename?
    ensures !Retitles(rules, draft, op, number, c)
  {
  }

  /** The title of a planned row, by id: an original row's old title, or the title of the attach that its mark names,
      through the successful renames of that id after it. */
  ghost predicate TitledById(retitle: TitleRule, chapters: seq<Chapter>, ops: seq<Op>, errors: seq<Option<OpError>>,
                             c: Chapter)
    requires |errors| == |ops|
  {
    if c.mark.None? then
      exists i :: 0 <= i < |chapters| && SameAudio(chapters[i], c)
        && c.title == Titled(retitle, c.id, ops, errors, chapters[i].title)
    else
      var k := c.mark.value;
      && k < |ops| && ops[k].Attach? && errors[k].None? && c.id == ops[k].fileId
      && c.title == Titled(retitle, c.id, ops[k + 1..], errors[k + 1..], ops[k].title)
  }

  /** For a whole call on a snapshot. */
  lemma PlannedTitles(retitle: TitleRule, chapters: seq<Chapter>, ops: seq<Op>, capacity: Limit, maxChapters: Limit,
                      c: Chapter)
    requires UniqueIds(chapters) && (forall i :: 0 <= i < |chapters| ==> chapters[i].mark.None?) && RenamesById(ops)
    requires c in PlanOps(retitle, chapters, ops, capacity, maxChapters).draft.work
    ensures TitledById(retitle, chapters, ops, PlanOps(retitle, chapters, ops, capacity, maxChapters).errors, c)
  {
    hide PlanFrom, Folded, SameAudio, Titled, Apart;
    var rules, draft := BatchRules(retitle, chapters, capacity, maxChapters), Draft(chapters, {});
    UniqueIsApart(chapters);
    TitlesFollowRenames(rules, draft, ops, 0, c);
    if TitledFromOld(rules, draft, ops, 0, c) {
      var i :| 0 <= i < |chapters| && SameAudio(chapters[i], c)
        && c.title == Folded(rules, draft, ops, 0, c, chapters[i].title);
      SameIdOfRow(chapters, c);
      assert Present(draft.work, c);
      FoldedById(rules, draft, ops, 0, c, chapters[i].title);
    } else {
      AttachTitled(rules, draft, ops, c);
    }
  }

  lemma {:induction false} AttachTitled(rules: Rules, draft: Draft, ops: seq<Op>, c: Chapter)
    requires Apart(draft.work) && MarksBelow(draft.work, 0) && RenamesById(ops)
    requires c in PlanFrom(rules, draft, ops, 0).draft.work && TitledFromAttach(rules, draft, ops, 0, c)
    ensures var errors, k := PlanFrom(rules, draft, ops, 0).errors, c.mark.value;
      c.id == ops[k].fileId
      && c.title == Titled(rules.retitle, c.id, ops[k + 1..], errors[k + 1..], ops[k].title)
  {
    hide PlanFrom, Folded, Titled, Apart, AfterOne, MarksBelow;
    var k := c.mark.value;
    var mid := PlanFrom(rules, draft, ops[..k + 1], 0);
    PlanSplitsAt(rules, draft, ops, k + 1);
    ApartAfterPlan(rules, draft, ops[..k + 1], 0);
    assert c.id == ops[k].fileId by { assert c.(title := "").id == NewChapter(ops[k], k).(title := "").id; }
    AttachedIsPresent(rules, draft, ops, c);
    FoldedById(rules, mid.draft, ops[k + 1..], k + 1, c, ops[k].title);
    assert PlanFrom(rules, draft, ops, 0).errors[k + 1..]
      == PlanFrom(rules, mid.draft, ops[k + 1..], k + 1).errors;
  }

  lemma {:induction false} ApartAfterPlan(rules: Rules, draft: Draft, ops: seq<Op>, number: nat)
    requires Apart(draft.work) && MarksBelow(draft.work, number)
    ensures Apart(PlanFrom(rules, draft, ops, number).draft.work)
    ensures MarksBelow(PlanFrom(rules, draft, ops, number).draft.work, number + |ops|)
    decreases ops
  {
    hide Apart, MarksBelow, AfterOne, ErrorOf;
    if ops != [] {
      ApartAfterOne(rules, draft, ops[0], number);
      ApartAfterPlan(rules, AfterOne(rules, draft, ops[0], number), ops[1..], number + 1);
    }
  }

  /** A row attached by op `k` that is in the final plan is on the list right after that op. */
  lemma {:induction false} AttachedIsPresent(rules: Rules, draft: Draft, ops: seq<Op>, c: Chapter)
    requires c in PlanFrom(rules, draft, ops, 0).draft.work && c.mark.Some? && c.mark.value < |ops|
    ensures Present(PlanFrom(rules, draft, ops[..c.mark.value + 1], 0).draft.work, c)
    ensures c in PlanFrom(rules, PlanFrom(rules, draft, ops[..c.mark.value + 1], 0).draft,
                          ops[c.mark.value + 1..], c.mark.value + 1).draft.work
  {
    hide PlanFrom, SameAudio;
    var k := c.mark.value;
    PlanSplitsAt(rules, draft, ops, k + 1);
    var mid := PlanFrom(rules, draft, ops[..k + 1], 0);
    RowsAreConserved(rules, mid.draft, ops[k + 1..], k + 1, c);
  }
}
