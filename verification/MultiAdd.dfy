/** Adding several results at once (app/job_pipeline.py:129-150): where the picks end up, however the uploads split over
    writes and whichever of them fail. */
module MultiAdd {
  import opened Lists
  import opened Planner
  import opened PlannerLaws
  import opened UndoSteps
  import opened UndoLaws

  // ---- Where one position puts one pick after another ----

  /** How many more picks land below one another; what follows lands above. */
  datatype Room = Endless | Room(left: nat) {
    predicate Opens() {
      Endless? || left > 0
    }

    /** The room that is left after `picks` more. */
    function After(picks: nat): Room {
      if Endless? then Endless else if picks <= left then Room(left - picks) else Room(0)
    }

    /** How many of `picks` land below one another. */
    function Of(picks: nat): (r: nat)
      ensures r <= picks
    {
      if Endless? || picks <= left then picks else left
    }
  }

  /** The end and a `before` row keep moving down; the start, an `after` row and an index that is reached do not. */
  function RoomAt(p: Position, cs: seq<Chapter>): Room {
    if p == NOWHERE then Endless
    else if p.edge.Some? then (if p.edge.value.End? then Endless else Room(0))
    else if p.before != "" && Find(cs, p.before).Some? then Endless
    else if p.after != "" && Find(cs, p.after).Some? then Room(0)
    else if p.index.Some? && p.index.value > |cs| then Room(p.index.value - |cs|)
    else Room(0)
  }

  /** Where the next pick lands; a position that does not resolve lands nothing. */
  function Spot(p: Position, cs: seq<Chapter>): (k: nat)
    ensures k <= |cs|
  {
    var r := InsertionIndex(cs, p, false);
    if r.Success? then r.value else 0
  }

  predicate Resolves(p: Position, cs: seq<Chapter>) {
    InsertionIndex(cs, p, false).Success?
  }

  /** The rows a position names. */
  predicate Names(p: Position, id: string) {
    id != "" && (id == p.before || id == p.after)
  }

  lemma OnlyAfterInsert(cs: seq<Chapter>, id: string, i: nat, k: nat, c: Chapter)
    requires IsOnly(cs, id, i) && k <= |cs| && c.id != id
    ensures IsOnly(InsertAt(cs, k, c), id, if k <= i then i + 1 else i)
  {
    var after := InsertAt(cs, k, c);
    forall j | 0 <= j < |after| && after[j].id == id ensures j == if k <= i then i + 1 else i {
      assert j != k;
      assert after[j] == cs[if j < k then j else j - 1];
    }
  }

  lemma OnlyBeforeInsert(cs: seq<Chapter>, id: string, j: nat, k: nat, c: Chapter)
    requires k <= |cs| && c.id != id && IsOnly(InsertAt(cs, k, c), id, j)
    ensures j != k && IsOnly(cs, id, if j < k then j else j - 1)
  {
    var after := InsertAt(cs, k, c);
    forall i | 0 <= i < |cs| && cs[i].id == id ensures i == if j < k then j else j - 1 {
      assert after[if i < k then i else i + 1] == cs[i];
    }
  }

  lemma FindAfterInsert(cs: seq<Chapter>, id: string, k: nat, c: Chapter)
    requires k <= |cs| && c.id != id
    ensures var at := Find(cs, id);
      Find(InsertAt(cs, k, c), id) == if at.None? then None else if k <= at.value then Some(at.value + 1) else at
  {
    var at, next := Find(cs, id), Find(InsertAt(cs, k, c), id);
    hide IsOnly, InsertAt;
    if at.Some? {
      OnlyAfterInsert(cs, id, at.value, k, c);
    } else if next.Some? {
      OnlyBeforeInsert(cs, id, next.value, k, c);
    }
  }

  lemma EdgeCases(p: Position)
    ensures p.edge.Some? ==> p.edge == Some(Start) || p.edge == Some(End)
  {
    if p.edge.Some? {
      match p.edge.value {
        case Start => assert p.edge == Some(Start);
        case End => assert p.edge == Some(End);
      }
    }
  }

  /** After one pick the position still resolves, right below that pick while there is room, else right above it. */
  lemma SpotAfterInsert(p: Position, cs: seq<Chapter>, c: Chapter)
    requires Resolves(p, cs) && c.id != p.before && c.id != p.after
    ensures var next := InsertAt(cs, Spot(p, cs), c);
      && Resolves(p, next) && RoomAt(p, next) == RoomAt(p, cs).After(1)
      && Spot(p, next) == if RoomAt(p, cs).Opens() then Spot(p, cs) + 1 else Spot(p, cs)
  {
    hide Find, InsertAt;
    var next := InsertAt(cs, Spot(p, cs), c);
    if p == NOWHERE || p.edge.Some? {
      EdgeCases(p);
    } else {
      var k := Spot(p, cs);
      FindAfterInsert(cs, p.before, k, c);
      FindAfterInsert(cs, p.after, k, c);
      AnchoredSpot(p, cs);
      AnchoredSpot(p, next);
      hide Spot, RoomAt, Resolves;
    }
  }

  /** A position without an edge, by what it names. */
  lemma AnchoredSpot(p: Position, cs: seq<Chapter>)
    requires p != NOWHERE && p.edge.None?
    ensures var before := if p.before == "" then None else Find(cs, p.before);
      var after := if p.after == "" then None else Find(cs, p.after);
      if before.Some? then Resolves(p, cs) && Spot(p, cs) == before.value && RoomAt(p, cs) == Endless
      else if p.before != "" && p.index.None? then !Resolves(p, cs)
      else if after.Some? then Resolves(p, cs) && Spot(p, cs) == after.value + 1 && RoomAt(p, cs) == Room(0)
      else if p.index.None? then !Resolves(p, cs)
      else
        && Resolves(p, cs) && Spot(p, cs) == Clamp(p.index.value, |cs|)
        && RoomAt(p, cs) == if p.index.value > |cs| then Room(p.index.value - |cs|) else Room(0)
  {
    hide Find;
  }

  // ---- One batch ----

  ghost predicate PicksAt(p: Position, ops: seq<Op>) {
    forall i :: 0 <= i < |ops| ==> ops[i].Attach? && ops[i].position == p
  }

  /** No file id that can still be attached is a row the position names. */
  ghost predicate Unclaimed(p: Position, ops: seq<Op>, existing: set<string>) {
    forall i :: 0 <= i < |ops| && ops[i].Attach? && Names(p, ops[i].fileId) ==> ops[i].fileId in existing
  }

  /** The rows that the successful picks add, first pick first. */
  function NewRows(ops: seq<Op>, errors: seq<Option<OpError>>, number: nat): (r: seq<Chapter>)
    requires |errors| == |ops| && forall i :: 0 <= i < |ops| ==> ops[i].Attach?
    ensures |r| <= |ops|
  {
    if ops == [] then []
    else (if errors[0].None? then [NewChapter(ops[0], number)] else []) + NewRows(ops[1..], errors[1..], number + 1)
  }

  /** What putting `rows` in one after another leaves between the rows above and below. */
  function Shape<T>(room: Room, rows: seq<T>): (r: seq<T>)
    ensures |r| == |rows|
    decreases |rows|
  {
    if rows == [] then []
    else if room.Opens() then [rows[0]] + Shape(room.After(1), rows[1..])
    else Shape(room, rows[1..]) + [rows[0]]
  }

  /** Downwards in order as long as there is room, then upwards. */
  lemma {:induction false} ShapeAt<T>(room: Room, rows: seq<T>, i: nat)
    requires i < |rows|
    ensures Shape(room, rows)[i] == rows[if i < room.Of(|rows|) then i else |rows| - 1 - (i - room.Of(|rows|))]
    decreases rows
  {
    if room.Opens() {
      if i > 0 { ShapeAt(room.After(1), rows[1..], i - 1); }
    } else if i < |rows| - 1 {
      ShapeAt(room, rows[1..], i);
    }
  }

  /** More rows go in between what landed downwards and what landed upwards. */
  lemma {:induction false} ShapeAppend<T>(room: Room, a: seq<T>, b: seq<T>)
    ensures var n := room.Of(|a|);
      Shape(room, a + b) == Shape(room, a)[..n] + Shape(room.After(|a|), b) + Shape(room, a)[n..]
    decreases a
  {
    if a == [] {
      assert a + b == b;
    } else {
      assert (a + b)[0] == a[0] && (a + b)[1..] == a[1..] + b;
      ShapeAppend(room.After(1), a[1..], b);
      ShapeOne(room, a[0], a[1..]);
      ShapeOne(room, a[0], a[1..] + b);
      assert a == [a[0]] + a[1..] && a + b == [a[0]] + (a[1..] + b);
      var up, mid := Shape(room.After(1), a[1..]), Shape(room.After(|a|), b);
      hide Shape;
      if room.Opens() {
        PrefixIn(a[0], up, room.After(1).Of(|a[1..]|), mid);
      } else {
        SuffixIn(a[0], up, mid);
      }
    }
  }

  lemma PrefixIn<T>(x: T, up: seq<T>, m: nat, mid: seq<T>)
    requires m <= |up|
    ensures ([x] + up)[..m + 1] + mid + ([x] + up)[m + 1..] == [x] + (up[..m] + mid + up[m..])
  {
    assert ([x] + up)[..m + 1] == [x] + up[..m] && ([x] + up)[m + 1..] == up[m..];
  }

  lemma SuffixIn<T>(x: T, up: seq<T>, mid: seq<T>)
    ensures (up + [x])[..0] + mid + (up + [x])[0..] == (up[..0] + mid + up[0..]) + [x]
  {
    assert (up + [x])[0..] == up + [x] && up[0..] == up;
  }

  lemma {:induction false} ShapeOne<T>(room: Room, x: T, rest: seq<T>)
    ensures Shape(room, [x] + rest)
            == if room.Opens() then [x] + Shape(room.After(1), rest) else Shape(room.After(1), rest) + [x]
    ensures room.After(1).After(|rest|) == room.After(|rest| + 1)
    ensures room.Of(|rest| + 1) == if room.Opens() then room.After(1).Of(|rest|) + 1 else 0
  {
    assert ([x] + rest)[1..] == rest;
  }

  /** One batch puts its picks into one block at the position; a position that does not resolve lands none. */
  lemma {:induction false} BatchInsertsBlock(rules: Rules, draft: Draft, ops: seq<Op>, number: nat, p: Position)
    requires PicksAt(p, ops) && Unclaimed(p, ops, rules.existing)
    ensures var plan := PlanFrom(rules, draft, ops, number);
      var k, room := Spot(p, draft.work), RoomAt(p, draft.work);
      var rows := NewRows(ops, plan.errors, number);
      if Resolves(p, draft.work) then
        && plan.draft.work == draft.work[..k] + Shape(room, rows) + draft.work[k..]
        && Resolves(p, plan.draft.work) && Spot(p, plan.draft.work) == k + room.Of(|rows|)
        && RoomAt(p, plan.draft.work) == room.After(|rows|)
      else plan.draft.work == draft.work && rows == []
    decreases ops
  {
    hide Resolves, Spot, RoomAt, Shape, InsertionIndex, ApplyOne, InsertAt, AfterOne, ErrorOf;
    var k, room := Spot(p, draft.work), RoomAt(p, draft.work);
    if ops == [] {
      ShapeNothing(room);
      assert draft.work[..k] + [] + draft.work[k..] == draft.work;
    } else {
      var next := AfterOne(rules, draft, ops[0], number);
      var plan := PlanFrom(rules, draft, ops, number);
      var rest := PlanFrom(rules, next, ops[1..], number + 1);
      assert plan.errors[1..] == rest.errors && plan.errors[0] == ErrorOf(rules, draft, ops[0], number);
      var rows := NewRows(ops[1..], rest.errors, number + 1);
      if plan.errors[0].None? {
        var c := NewChapter(ops[0], number);
        PickInserts(rules, draft, ops[0], number);
        SpotAfterInsert(p, draft.work, c);
        BatchInsertsBlock(rules, next, ops[1..], number + 1, p);
        assert NewRows(ops, plan.errors, number) == [c] + rows;
        BlockGrows(room, draft.work, k, c, rows);
      } else {
        PickRefused(rules, draft, ops[0], number);
        BatchInsertsBlock(rules, next, ops[1..], number + 1, p);
        assert [] + rows == rows;
      }
    }
  }

  lemma {:induction false} ShapeNothing(room: Room)
    ensures Shape<Chapter>(room, []) == []
  {
  }

  lemma PickInserts(rules: Rules, draft: Draft, op: Op, number: nat)
    requires op.Attach? && ErrorOf(rules, draft, op, number).None?
    ensures AfterOne(rules, draft, op, number).work
      == InsertAt(draft.work, Spot(op.position, draft.work), NewChapter(op, number))
    ensures Resolves(op.position, draft.work) && op.fileId != "" && op.fileId !in rules.existing
  {
  }

  lemma PickRefused(rules: Rules, draft: Draft, op: Op, number: nat)
    requires ErrorOf(rules, draft, op, number).Some?
    ensures AfterOne(rules, draft, op, number) == draft
  {
  }

  lemma {:induction false} BlockGrows(room: Room, cs: seq<Chapter>, k: nat, c: Chapter, rows: seq<Chapter>)
    requires k <= |cs|
    ensures var next := InsertAt(cs, k, c);
      var at := if room.Opens() then k + 1 else k;
      && next[..at] + Shape(room.After(1), rows) + next[at..] == cs[..k] + Shape(room, [c] + rows) + cs[k..]
      && at + room.After(1).Of(|rows|) == k + room.Of(|rows| + 1)
        && room.After(1).After(|rows|) == room.After(|rows| + 1)
  {
    hide Shape, InsertAt;
    ShapeOne(room, c, rows);
    var block := Shape(room.After(1), rows);
    if room.Opens() { InsertedDown(cs, k, c, block); } else { InsertedUp(cs, k, c, block); }
  }

  lemma InsertedDown<T>(cs: seq<T>, k: nat, c: T, block: seq<T>)
    requires k <= |cs|
    ensures var next := InsertAt(cs, k, c); next[..k + 1] + block + next[k + 1..] == cs[..k] + ([c] + block) + cs[k..]
  {
    var next := InsertAt(cs, k, c);
    assert next[..k + 1] == cs[..k] + [c] && next[k + 1..] == cs[k..];
  }

  lemma InsertedUp<T>(cs: seq<T>, k: nat, c: T, block: seq<T>)
    requires k <= |cs|
    ensures var next := InsertAt(cs, k, c); next[..k] + block + next[k..] == cs[..k] + (block + [c]) + cs[k..]
  {
    var next := InsertAt(cs, k, c);
    assert next[..k] == cs[..k] && next[k..] == [c] + cs[k..];
  }

  // ---- Several writes ----

  /** One write of the Tonie: the uploads in it, the job of each, their results with the permanent ids of the new rows,
      and the list that is read next. The cloud may still change file and duration of `loose` rows. */
  datatype Round = Round(retitle: TitleRule, capacity: Limit, maxChapters: Limit, ops: seq<Op>, jobs: seq<nat>,
                         results: seq<OpResult>, loose: set<string>, later: seq<Chapter>)

  function PlanOfRound(before: seq<Chapter>, r: Round): (p: Plan)
    ensures |p.errors| == |r.ops|
  {
    PlanOps(r.retitle, before, r.ops, r.capacity, r.maxChapters)
  }

  /** A list as the cloud returns it. */
  ghost predicate Stored(cs: seq<Chapter>) {
    UniqueIds(cs) && forall i :: 0 <= i < |cs| ==> cs[i].mark.None?
  }

  /** A chapter the position names that is not on the Tonie does not come back, and no upload is filed under its id. */
  ghost predicate GoneStaysGone(p: Position, before: seq<Chapter>, r: Round) {
    forall id :: Names(p, id) && id !in Ids(before) ==>
      id !in Ids(r.later) && forall i :: 0 <= i < |r.ops| && r.ops[i].Attach? ==> r.ops[i].fileId != id
  }

  /** Nobody else edited the Tonie: the next list shows the plan. */
  ghost predicate Follows(before: seq<Chapter>, r: Round, p: Position) {
    && |r.jobs| == |r.ops| && Stored(r.later) && PicksAt(p, r.ops) && GoneStaysGone(p, before, r)
    && Shows(r.results, r.loose, PlanOfRound(before, r).draft.work, r.later)
  }

  ghost predicate Journey(before: seq<Chapter>, rounds: seq<Round>, p: Position)
    decreases rounds
  {
    rounds == [] || (Stored(before) && Follows(before, rounds[0], p) && Journey(rounds[0].later, rounds[1..], p))
  }

  /** Which job each row came from: a marked row from its op, any other from the row with its id in the list before. */
  function TagsAfter(before: seq<Chapter>, tags: seq<Option<nat>>, planned: seq<Chapter>,
                     jobs: seq<nat>): (r: seq<Option<nat>>)
    requires |tags| == |before|
    ensures |r| == |planned|
  {
    seq(|planned|, i requires 0 <= i < |planned| =>
      if planned[i].mark.Some? then (if planned[i].mark.value < |jobs| then Some(jobs[planned[i].mark.value]) else None)
      else if Find(before, planned[i].id).Some? then tags[Find(before, planned[i].id).value] else None)
  }

  ghost function FinalTags(before: seq<Chapter>, tags: seq<Option<nat>>, rounds: seq<Round>,
                           p: Position): seq<Option<nat>>
    requires |tags| == |before| && Journey(before, rounds, p)
    decreases rounds
  {
    if rounds == [] then tags
    else
      FinalTags(rounds[0].later, TagsAfter(before, tags, PlanOfRound(before, rounds[0]).draft.work, rounds[0].jobs),
                rounds[1..], p)
  }

  /** The jobs whose uploads attached, in the order they were written. */
  function LandedIn(errors: seq<Option<OpError>>, jobs: seq<nat>): (r: seq<nat>)
    requires |errors| == |jobs|
    ensures forall j :: j in r ==> j in jobs
  {
    if errors == [] then [] else (if errors[0].None? then [jobs[0]] else []) + LandedIn(errors[1..], jobs[1..])
  }

  ghost function Landed(before: seq<Chapter>, rounds: seq<Round>, p: Position): seq<nat>
    requires Journey(before, rounds, p)
    decreases rounds
  {
    if rounds == [] then []
    else LandedIn(PlanOfRound(before, rounds[0]).errors, rounds[0].jobs) + Landed(rounds[0].later, rounds[1..], p)
  }

  function Blank(n: nat): (r: seq<Option<nat>>)
    ensures |r| == n && forall i :: 0 <= i < n ==> r[i].None?
  {
    seq(n, i => None)
  }

  function Tagged(jobs: seq<nat>): (r: seq<Option<nat>>)
    ensures |r| == |jobs| && forall i :: 0 <= i < |r| ==> r[i] == Some(jobs[i])
  {
    seq(|jobs|, i requires 0 <= i < |jobs| => Some(jobs[i]))
  }

  lemma {:induction false} NewRowsAreLanded(ops: seq<Op>, errors: seq<Option<OpError>>, jobs: seq<nat>, number: nat,
                                            i: nat)
    requires |errors| == |ops| == |jobs| && forall k :: 0 <= k < |ops| ==> ops[k].Attach?
    ensures |NewRows(ops, errors, number)| == |LandedIn(errors, jobs)|
    ensures i < |NewRows(ops, errors, number)| ==>
      var mark := NewRows(ops, errors, number)[i].mark;
      mark.Some? && number <= mark.value < number + |ops| && jobs[mark.value - number] == LandedIn(errors, jobs)[i]
    decreases ops
  {
    if ops != [] {
      var skip := if errors[0].None? then 1 else 0;
      NewRowsAreLanded(ops[1..], errors[1..], jobs[1..], number + 1, if i >= skip then i - skip else 0);
    }
  }

  lemma OwnRow(before: seq<Chapter>, i: nat)
    requires UniqueIds(before) && i < |before|
    ensures Find(before, before[i].id) == Some(i)
  {
    assert IsOnly(before, before[i].id, i);
  }

  /** The tags of a list with one block put in are the old tags with the block's jobs put in. */
  lemma {:induction false} TagsOfBlock(before: seq<Chapter>, tags: seq<Option<nat>>, room: Room, k: nat,
                                       rows: seq<Chapter>, jobs: seq<nat>, landed: seq<nat>)
    requires Stored(before) && |tags| == |before| && k <= |before| && |rows| == |landed|
    requires forall i :: 0 <= i < |rows| ==>
      rows[i].mark.Some? && rows[i].mark.value < |jobs| && jobs[rows[i].mark.value] == landed[i]
    ensures TagsAfter(before, tags, before[..k] + Shape(room, rows) + before[k..], jobs)
            == PutAt(tags, k, Tagged(Shape(room, landed)))
  {
    hide Shape, Find, UniqueIds;
    var planned := before[..k] + Shape(room, rows) + before[k..];
    var want := tags[..k] + Tagged(Shape(room, landed)) + tags[k..];
    var got := TagsAfter(before, tags, planned, jobs);
    forall i | 0 <= i < |planned| ensures got[i] == want[i] {
      if i < k {
        OwnRow(before, i);
      } else if i < k + |rows| {
        ShapeAt(room, rows, i - k);
        ShapeAt(room, landed, i - k);
      } else {
        OwnRow(before, i - |rows|);
      }
    }
  }

  // ---- The position in the next list ----

  ghost predicate SameAt(id: string, a: seq<Chapter>, b: seq<Chapter>) {
    |a| == |b| && forall i :: 0 <= i < |a| ==> (a[i].id == id <==> b[i].id == id)
  }

  lemma FindSame(id: string, a: seq<Chapter>, b: seq<Chapter>)
    requires SameAt(id, a, b)
    ensures Find(a, id) == Find(b, id)
  {
    forall i ensures IsOnly(a, id, i) <==> IsOnly(b, id, i) { }
  }

  lemma SpotSame(p: Position, a: seq<Chapter>, b: seq<Chapter>)
    requires |a| == |b| && (p.before != "" ==> SameAt(p.before, a, b)) && (p.after != "" ==> SameAt(p.after, a, b))
    ensures Resolves(p, a) == Resolves(p, b) && Spot(p, a) == Spot(p, b) && RoomAt(p, a) == RoomAt(p, b)
  {
    hide Find, SameAt;
    if p.before != "" { FindSame(p.before, a, b); }
    if p.after != "" { FindSame(p.after, a, b); }
  }

  lemma NewRowIds(ops: seq<Op>, errors: seq<Option<OpError>>, number: nat, i: nat) returns (m: nat)
    requires |errors| == |ops| && forall j :: 0 <= j < |ops| ==> ops[j].Attach?
    requires i < |NewRows(ops, errors, number)|
    ensures m < |ops| && errors[m].None? && NewRows(ops, errors, number)[i].id == ops[m].fileId
  {
    if errors[0].None? && i == 0 {
      m := 0;
    } else {
      m := NewRowIds(ops[1..], errors[1..], number + 1, if errors[0].None? then i - 1 else i);
      m := m + 1;
    }
  }

  /** The row of a pick, under a new id. */
  ghost predicate IsPick(before: seq<Chapter>, r: Round, c: Chapter) {
    c.id !in Ids(before) && exists m :: 0 <= m < |r.ops| && r.ops[m].Attach? && r.ops[m].fileId == c.id
  }

  /** The planned list is the list before with one block of new rows put in. */
  ghost predicate IsPlan(before: seq<Chapter>, r: Round, k: nat, block: seq<Chapter>, planned: seq<Chapter>) {
    && k <= |before| && planned == before[..k] + block + before[k..]
    && forall i :: 0 <= i < |block| ==> IsPick(before, r, block[i])
  }

  lemma {:induction false} ShapedPicks(before: seq<Chapter>, r: Round, errors: seq<Option<OpError>>, room: Room, i: nat)
    requires |errors| == |r.ops| && forall j :: 0 <= j < |r.ops| ==> r.ops[j].Attach?
    requires forall j :: 0 <= j < |r.ops| && errors[j].None? ==> r.ops[j].fileId !in Ids(before)
    requires i < |NewRows(r.ops, errors, 0)|
    ensures IsPick(before, r, Shape(room, NewRows(r.ops, errors, 0))[i])
  {
    var rows := NewRows(r.ops, errors, 0);
    ShapeAt(room, rows, i);
    hide Shape, NewRows;
    var m := NewRowIds(r.ops, errors, 0, if i < room.Of(|rows|) then i else |rows| - 1 - (i - room.Of(|rows|)));
  }

  lemma NoClaims(before: seq<Chapter>, r: Round, p: Position)
    requires GoneStaysGone(p, before, r)
    ensures Unclaimed(p, r.ops, ExistingIds(before))
  {
    forall i | 0 <= i < |r.ops| && r.ops[i].Attach? && Names(p, r.ops[i].fileId)
      ensures r.ops[i].fileId in ExistingIds(before)
    {
      assert r.ops[i].fileId in Ids(before);
    }
  }

  lemma PicksAreNew(before: seq<Chapter>, r: Round)
    requires forall j :: 0 <= j < |r.ops| ==> r.ops[j].Attach?
    ensures forall j :: 0 <= j < |r.ops| && PlanOfRound(before, r).errors[j].None? ==> r.ops[j].fileId !in Ids(before)
  {
    hide PlanFrom;
    var rules := BatchRules(r.retitle, before, r.capacity, r.maxChapters);
    forall j | 0 <= j < |r.ops| && PlanOfRound(before, r).errors[j].None? ensures r.ops[j].fileId !in Ids(before) {
      AttachedAreFresh(rules, Draft(before, {}), r.ops, 0, j);
    }
  }

  lemma RoundPlan(before: seq<Chapter>, r: Round, p: Position) returns (rows: seq<Chapter>)
    requires Follows(before, r, p)
    ensures forall i :: 0 <= i < |r.ops| ==> r.ops[i].Attach?
    ensures rows == NewRows(r.ops, PlanOfRound(before, r).errors, 0)
    ensures var planned := PlanOfRound(before, r).draft.work;
      && IsPlan(before, r, Spot(p, before), Shape(RoomAt(p, before), rows), planned)
      && (Resolves(p, before) ==> Resolves(p, planned))
      && (Resolves(p, before) ==> Spot(p, planned) == Spot(p, before) + RoomAt(p, before).Of(|rows|))
      && (Resolves(p, before) ==> RoomAt(p, planned) == RoomAt(p, before).After(|rows|))
      && (!Resolves(p, before) ==> rows == [] && planned == before)
  {
    hide Resolves, Spot, RoomAt, Shape, PlanFrom, NewRows, Shows, Stored, GoneStaysGone, Unclaimed, ExistingIds;
    var plan := PlanOfRound(before, r);
    rows := NewRows(r.ops, plan.errors, 0);
    var k, room := Spot(p, before), RoomAt(p, before);
    NoClaims(before, r, p);
    BatchInsertsBlock(BatchRules(r.retitle, before, r.capacity, r.maxChapters), Draft(before, {}), r.ops, 0, p);
    PicksAreNew(before, r);
    forall i | 0 <= i < |Shape(room, rows)| ensures IsPick(before, r, Shape(room, rows)[i]) {
      ShapedPicks(before, r, plan.errors, room, i);
    }
    ShapeNothing(room);
    assert rows == [] ==> before[..k] + Shape(room, rows) + before[k..] == before;
  }

  lemma PlannedIs(before: seq<Chapter>, r: Round, k: nat, block: seq<Chapter>, planned: seq<Chapter>, i: nat)
    requires Stored(before) && IsPlan(before, r, k, block, planned) && i < |planned|
    ensures (planned[i].id in Ids(before) && planned[i].mark.None?) || IsPick(before, r, planned[i])
  {
    if k <= i < k + |block| {
      assert planned[i] == block[i - k];
    } else {
      var j := if i < k then i else i - |block|;
      assert planned[i] == before[j];
    }
  }

  lemma OldIsPlanned(before: seq<Chapter>, r: Round, k: nat, block: seq<Chapter>, planned: seq<Chapter>, id: string)
    returns (i: nat)
    requires IsPlan(before, r, k, block, planned) && id in Ids(before)
    ensures i < |planned| && planned[i].id == id
  {
    var j :| 0 <= j < |before| && before[j].id == id;
    i := if j < k then j else j + |block|;
  }

  lemma AnchorStays(before: seq<Chapter>, r: Round, p: Position, k: nat, block: seq<Chapter>, id: string)
    requires Stored(before) && Names(p, id)
    requires Follows(before, r, p) && IsPlan(before, r, k, block, PlanOfRound(before, r).draft.work)
    ensures SameAt(id, PlanOfRound(before, r).draft.work, r.later)
  {
    hide IsPlan, PlanOfRound;
    var planned := PlanOfRound(before, r).draft.work;
    forall i | 0 <= i < |planned| ensures planned[i].id == id <==> r.later[i].id == id {
      assert SameAs(PermanentId(r.results, planned[i]), r.loose, planned[i], r.later[i]);
      PlannedIs(before, r, k, block, planned, i);
      if id in Ids(before) {
        var j := OldIsPlanned(before, r, k, block, planned, id);
        PlannedIs(before, r, k, block, planned, j);
        assert SameAs(PermanentId(r.results, planned[j]), r.loose, planned[j], r.later[j]);
      }
    }
  }

  lemma NextSpot(before: seq<Chapter>, r: Round, p: Position, k: nat, block: seq<Chapter>)
    requires Stored(before) && Follows(before, r, p) && IsPlan(before, r, k, block, PlanOfRound(before, r).draft.work)
    ensures var planned := PlanOfRound(before, r).draft.work;
      && |r.later| == |planned|
      && Resolves(p, planned) == Resolves(p, r.later) && Spot(p, planned) == Spot(p, r.later)
        && RoomAt(p, planned) == RoomAt(p, r.later)
  {
    hide IsPlan, PlanOfRound, SameAt, Resolves, Spot, RoomAt;
    if p.before != "" { AnchorStays(before, r, p, k, block, p.before); }
    if p.after != "" { AnchorStays(before, r, p, k, block, p.after); }
    SpotSame(p, PlanOfRound(before, r).draft.work, r.later);
  }

  // ---- The block ----

  /** The rows of the block so far; the next pick lands where it grows. */
  ghost predicate Grew(before: seq<Chapter>, tags: seq<Option<nat>>, p: Position, landed: seq<nat>, room: Room,
                       top: nat, bottom: nat)
  {
    && |tags| == |before| && Stored(before) && Resolves(p, before)
    && tags == Blank(top) + Tagged(Shape(room, landed)) + Blank(bottom)
    && Spot(p, before) == top + room.Of(|landed|) && RoomAt(p, before) == room.After(|landed|)
  }

  lemma Insert3<T>(top: seq<T>, block: seq<T>, bottom: seq<T>, n: nat, mid: seq<T>)
    requires n <= |block|
    ensures var all := top + block + bottom;
      all[..|top| + n] + mid + all[|top| + n..] == top + (block[..n] + mid + block[n..]) + bottom
  {
    var all := top + block + bottom;
    assert all[..|top| + n] == top + block[..n] && all[|top| + n..] == block[n..] + bottom;
  }

  lemma Rooms(room: Room, a: nat, b: nat)
    ensures room.Of(a) + room.After(a).Of(b) == room.Of(a + b) && room.After(a).After(b) == room.After(a + b)
  {
  }

  function PutAt<T>(s: seq<T>, k: nat, block: seq<T>): seq<T>
    requires k <= |s|
  {
    s[..k] + block + s[k..]
  }

  /** `whole` is what `block` becomes when `mid` goes in at `n`. */
  ghost predicate Joined(block: seq<nat>, mid: seq<nat>, whole: seq<nat>, n: nat) {
    n <= |block| && whole == PutAt(block, n, mid)
  }

  lemma {:induction false} ShapeJoins(room: Room, a: seq<nat>, b: seq<nat>)
    ensures Joined(Shape(room, a), Shape(room.After(|a|), b), Shape(room, a + b), room.Of(|a|))
  {
    ShapeAppend(room, a, b);
  }

  /** Putting the newly landed jobs in where the block grows. */
  lemma BlockTagsGrow(tags: seq<Option<nat>>, block: seq<nat>, mid: seq<nat>, whole: seq<nat>, n: nat, top: nat,
                      bottom: nat)
    requires tags == Blank(top) + Tagged(block) + Blank(bottom) && Joined(block, mid, whole, n)
    ensures top + n <= |tags| && PutAt(tags, top + n, Tagged(mid)) == Blank(top) + Tagged(whole) + Blank(bottom)
  {
    TaggedInsert(block, n, mid);
    hide Tagged, Blank;
    Insert3(Blank(top), Tagged(block), Blank(bottom), n, Tagged(mid));
  }

  lemma TaggedInsert(a: seq<nat>, n: nat, b: seq<nat>)
    requires n <= |a|
    ensures Tagged(a[..n] + b + a[n..]) == Tagged(a)[..n] + Tagged(b) + Tagged(a)[n..]
  {
  }

  /** One write grows the block, and leaves everything else where it is. */
  lemma RoundGrows(before: seq<Chapter>, tags: seq<Option<nat>>, r: Round, p: Position, landed: seq<nat>, room: Room,
                   top: nat, bottom: nat)
    requires Grew(before, tags, p, landed, room, top, bottom) && Follows(before, r, p)
    ensures |r.jobs| == |r.ops|
    ensures var plan := PlanOfRound(before, r);
      && |r.later| == |plan.draft.work|
      && Grew(r.later, TagsAfter(before, tags, plan.draft.work, r.jobs), p, landed + LandedIn(plan.errors, r.jobs),
        room, top, bottom)
  {
    hide Resolves, Spot, RoomAt, Shape, TagsAfter, Tagged, Blank, PlanOfRound, NewRows, LandedIn, Shows, GoneStaysGone;
    var plan := PlanOfRound(before, r);
    var rows := RoundPlan(before, r, p);
    NextSpot(before, r, p, Spot(p, before), Shape(RoomAt(p, before), rows));
    var more := LandedIn(plan.errors, r.jobs);
    forall i | 0 <= i < |rows|
      ensures |rows| == |more|
      ensures rows[i].mark.Some? && rows[i].mark.value < |r.jobs| && r.jobs[rows[i].mark.value] == more[i]
    {
      NewRowsAreLanded(r.ops, plan.errors, r.jobs, 0, i);
    }
    NewRowsAreLanded(r.ops, plan.errors, r.jobs, 0, 0);
    TagsOfBlock(before, tags, RoomAt(p, before), Spot(p, before), rows, r.jobs, more);
    ShapeJoins(room, landed, more);
    BlockTagsGrow(tags, Shape(room, landed), Shape(RoomAt(p, before), more), Shape(room, landed + more),
      room.Of(|landed|), top, bottom);
    Rooms(room, |landed|, |more|);
  }

  lemma {:induction false} RoundsGrow(before: seq<Chapter>, tags: seq<Option<nat>>, rounds: seq<Round>, p: Position,
                                      landed: seq<nat>, room: Room, top: nat, bottom: nat)
    requires Grew(before, tags, p, landed, room, top, bottom) && Journey(before, rounds, p)
    ensures FinalTags(before, tags, rounds, p)
            == Blank(top) + Tagged(Shape(room, landed + Landed(before, rounds, p))) + Blank(bottom)
    decreases rounds
  {
    hide Follows, TagsAfter, Shape, PlanOfRound, Tagged, Blank, Grew;
    GrewTags(before, tags, p, landed, room, top, bottom);
    if rounds == [] {
      assert landed + [] == landed;
    } else {
      var r := rounds[0];
      RoundGrows(before, tags, r, p, landed, room, top, bottom);
      var plan := PlanOfRound(before, r);
      var more := LandedIn(plan.errors, r.jobs);
      RoundsGrow(r.later, TagsAfter(before, tags, plan.draft.work, r.jobs), rounds[1..], p, landed + more, room,
        top, bottom);
      assert landed + more + Landed(r.later, rounds[1..], p) == landed + (more + Landed(r.later, rounds[1..], p));
    }
  }

  lemma {:induction false} GrewTags(before: seq<Chapter>, tags: seq<Option<nat>>, p: Position, landed: seq<nat>,
                                    room: Room, top: nat, bottom: nat)
    requires Grew(before, tags, p, landed, room, top, bottom)
    ensures |tags| == |before| && tags == Blank(top) + Tagged(Shape(room, landed)) + Blank(bottom)
  {
  }

  /** A position that does not resolve lands nothing, in any number of writes. */
  lemma {:induction false} GoneLandsNothing(before: seq<Chapter>, rounds: seq<Round>, p: Position)
    requires Stored(before) && !Resolves(p, before) && Journey(before, rounds, p)
    ensures Landed(before, rounds, p) == [] && FinalTags(before, Blank(|before|), rounds, p) == Blank(|before|)
    decreases rounds
  {
    hide Resolves, PlanOfRound, NewRows, LandedIn, TagsAfter;
    if rounds != [] {
      var r := rounds[0];
      var rows := RoundPlan(before, r, p);
      NextSpot(before, r, p, Spot(p, before), Shape(RoomAt(p, before), rows));
      NewRowsAreLanded(r.ops, PlanOfRound(before, r).errors, r.jobs, 0, 0);
      SameTags(before, Blank(|before|), r.jobs);
      GoneLandsNothing(r.later, rounds[1..], p);
    }
  }

  lemma SameTags(before: seq<Chapter>, tags: seq<Option<nat>>, jobs: seq<nat>)
    requires Stored(before) && |tags| == |before|
    ensures TagsAfter(before, tags, before, jobs) == tags
  {
    forall i | 0 <= i < |before| ensures TagsAfter(before, tags, before, jobs)[i] == tags[i] {
      OwnRow(before, i);
    }
  }

  /** However the picks split over writes and whichever fail, those that attach end up as one block at the position, in
      the order of the writes as long as the position has room below, and the rest upwards. The other rows stay
      around it. */
  lemma {:induction false} PicksStayTogether(start: seq<Chapter>, rounds: seq<Round>, p: Position)
    requires Stored(start) && Journey(start, rounds, p)
    ensures var top := Spot(p, start);
      FinalTags(start, Blank(|start|), rounds, p)
        == Blank(top) + Tagged(Shape(RoomAt(p, start), Landed(start, rounds, p))) + Blank(|start| - top)
  {
    hide Shape, Resolves, Spot, RoomAt, FinalTags, Journey, Landed;
    var top, room := Spot(p, start), RoomAt(p, start);
    NoJobs(room);
    assert Blank(|start|) == Blank(top) + Tagged([]) + Blank(|start| - top);
    if Resolves(p, start) {
      RoundsGrow(start, Blank(|start|), rounds, p, [], room, top, |start| - top);
      assert [] + Landed(start, rounds, p) == Landed(start, rounds, p);
    } else {
      GoneLandsNothing(start, rounds, p);
    }
  }

  lemma {:induction false} NoJobs(room: Room)
    ensures Shape<nat>(room, []) == [] && room.Of(0) == 0 && room.After(0) == room
  {
  }

  // ---- Selection order ----

  /** `hand_over`: the i-th job handed over, among `count`, is the i-th picked one, or from the last
      for the top edge. */
  function Selected(p: Position, count: nat, job: nat): nat
    requires job < count
  {
    if p.edge == Some(Start) then count - 1 - job else job
  }

  /** The jobs of all the uploads, in the order they enter writes. */
  function JobsOf(rounds: seq<Round>): seq<nat> {
    if rounds == [] then [] else rounds[0].jobs + JobsOf(rounds[1..])
  }

  lemma {:induction false} LandedInAscends(errors: seq<Option<OpError>>, jobs: seq<nat>)
    requires |errors| == |jobs| && Ascends(jobs)
    ensures Ascends(LandedIn(errors, jobs))
    decreases jobs
  {
    if jobs != [] {
      LandedInAscends(errors[1..], jobs[1..]);
      var rest := LandedIn(errors[1..], jobs[1..]);
      forall i | 0 <= i < |rest| ensures jobs[0] < rest[i] {
        assert rest[i] in jobs[1..];
        var k :| 0 <= k < |jobs[1..]| && jobs[1..][k] == rest[i];
      }
    }
  }

  lemma AscendsParts(a: seq<nat>, b: seq<nat>)
    requires Ascends(a + b)
    ensures Ascends(a) && Ascends(b) && forall x, y :: x in a && y in b ==> x < y
  {
    assert forall i :: 0 <= i < |a| ==> (a + b)[i] == a[i];
    assert forall i :: 0 <= i < |b| ==> (a + b)[|a| + i] == b[i];
  }

  lemma AscendsJoin(a: seq<nat>, b: seq<nat>)
    requires Ascends(a) && Ascends(b) && forall x, y :: x in a && y in b ==> x < y
    ensures Ascends(a + b)
  {
    forall i, j | 0 <= i < j < |a + b| ensures (a + b)[i] < (a + b)[j] {
      if i < |a| <= j { assert a[i] in a && b[j - |a|] in b; }
    }
  }

  lemma {:induction false} LandedAscends(before: seq<Chapter>, rounds: seq<Round>, p: Position)
    requires Journey(before, rounds, p) && Ascends(JobsOf(rounds))
    ensures Ascends(Landed(before, rounds, p)) && forall j :: j in Landed(before, rounds, p) ==> j in JobsOf(rounds)
    decreases rounds
  {
    if rounds != [] {
      var errors := PlanOfRound(before, rounds[0]).errors;
      hide Ascends, LandedIn, PlanOfRound;
      AscendsParts(rounds[0].jobs, JobsOf(rounds[1..]));
      LandedInAscends(errors, rounds[0].jobs);
      LandedAscends(rounds[0].later, rounds[1..], p);
      AscendsJoin(LandedIn(errors, rounds[0].jobs), Landed(rounds[0].later, rounds[1..], p));
    }
  }

  /** From top to bottom, the tagged rows are in the order the results were picked. */
  ghost predicate InPickedOrder(p: Position, count: nat, tags: seq<Option<nat>>) {
    && (forall i :: 0 <= i < |tags| && tags[i].Some? ==> tags[i].value < count)
    && (forall i, j :: 0 <= i < j < |tags| && tags[i].Some? && tags[j].Some? ==>
          Selected(p, count, tags[i].value) < Selected(p, count, tags[j].value))
  }

  /** Which job the row at `t` came from: the block lies between `top` and `bottom`. */
  ghost predicate IsBlock(room: Room, tags: seq<Option<nat>>, landed: seq<nat>, top: nat) {
    var n := room.Of(|landed|);
    && top + |landed| <= |tags|
    && (forall t :: 0 <= t < |tags| && (t < top || t >= top + |landed|) ==> tags[t].None?)
    && (forall t :: top <= t < top + |landed| ==>
          tags[t] == Some(landed[if t - top < n then t - top else |landed| - 1 - (t - top - n)]))
  }

  lemma {:induction false} BlockIsBlock(room: Room, landed: seq<nat>, top: nat, bottom: nat)
    ensures IsBlock(room, Blank(top) + Tagged(Shape(room, landed)) + Blank(bottom), landed, top)
  {
    hide Shape;
    var tags := Blank(top) + Tagged(Shape(room, landed)) + Blank(bottom);
    var n := room.Of(|landed|);
    forall t | top <= t < top + |landed|
      ensures tags[t] == Some(landed[if t - top < n then t - top else |landed| - 1 - (t - top - n)])
    {
      ShapeAt(room, landed, t - top);
    }
  }

  /** The order of picking is kept when handing over last-first suits the top edge, or all but one landed downwards. */
  predicate KeepsOrder(p: Position, room: Room, landed: nat) {
    p.edge == Some(Start) || room.Endless? || landed <= room.left + 1
  }

  lemma BlockOrder(p: Position, room: Room, count: nat, tags: seq<Option<nat>>, landed: seq<nat>, top: nat)
    requires IsBlock(room, tags, landed, top) && Ascends(landed) && forall j :: j in landed ==> j < count
    requires p.edge == Some(Start) ==> room == Room(0)
    ensures InPickedOrder(p, count, tags) <==> KeepsOrder(p, room, |landed|)
  {
    assert forall i :: 0 <= i < |landed| ==> landed[i] in landed;
    if !KeepsOrder(p, room, |landed|) {
      var n := room.left;
      assert landed[|landed| - 2] < landed[|landed| - 1];
      assert tags[top + n].Some? && tags[top + n + 1].Some?;
    }
  }

  lemma StartHasNoRoom(p: Position, cs: seq<Chapter>)
    ensures p.edge == Some(Start) ==> RoomAt(p, cs) == Room(0)
  {
  }

  /** Adding `count` picks at once, at any position: those that attach are shown in the order they were picked exactly
      when the position is the top edge, the end or a `before` row that is there, or at most one more attaches than an
      index lies past the end. */
  lemma {:induction false} MultiAddOrderIff(start: seq<Chapter>, rounds: seq<Round>, p: Position, count: nat)
    requires Stored(start) && Journey(start, rounds, p)
    requires Ascends(JobsOf(rounds)) && forall j :: j in JobsOf(rounds) ==> j < count
    ensures InPickedOrder(p, count, FinalTags(start, Blank(|start|), rounds, p))
            <==> KeepsOrder(p, RoomAt(p, start), |Landed(start, rounds, p)|)
  {
    hide Shape, Spot, RoomAt, FinalTags, Journey, InPickedOrder, Ascends, Landed, JobsOf, IsBlock;
    PicksStayTogether(start, rounds, p);
    LandedAscends(start, rounds, p);
    StartHasNoRoom(p, start);
    var landed, top, room := Landed(start, rounds, p), Spot(p, start), RoomAt(p, start);
    BlockIsBlock(room, landed, top, |start| - top);
    BlockOrder(p, room, count, FinalTags(start, Blank(|start|), rounds, p), landed, top);
  }
}
