/** Reading a Tonie (app/tonies_content.py): validation, comparison of lists, and the read-back loop. */
module CloudContent {
  import opened Lists
  import opened Planner

  /** One answer of the cloud; rows as parsed, before validation. */
  datatype Snapshot = Snapshot(chapters: seq<Chapter>, secondsRemaining: real, maxSeconds: real, maxChapters: real)

  /** A read either fails or returns some snapshot. */
  type Read = Option<Snapshot>

  /** The fields the app may write back. */
  datatype Row = Row(id: string, title: string, file: string, seconds: real, kind: string)

  function RowOf(c: Chapter): Row {
    Row(c.id, c.title, c.file, c.seconds, c.kind)
  }

  /** `writable_chapters` */
  function Writable(cs: seq<Chapter>): (r: seq<Row>)
    ensures |r| == |cs| && forall i :: 0 <= i < |cs| ==> r[i] == RowOf(cs[i])
  {
    seq(|cs|, i requires 0 <= i < |cs| => RowOf(cs[i]))
  }

  /** A row the app accepts from the cloud; parsed rows carry no planner mark. */
  predicate ValidChapter(c: Chapter) {
    c.id != "" && c.seconds >= 0.0 && c.transcoding != Broken && c.mark.None?
  }

  ghost predicate ValidChapters(cs: seq<Chapter>) {
    UniqueIds(cs) && forall i :: 0 <= i < |cs| ==> ValidChapter(cs[i])
  }

  method ValidatedChapters(cs: seq<Chapter>) returns (ok: bool)
    ensures ok <==> ValidChapters(cs)
  {
    var identities: set<string> := {};
    for n := 0 to |cs|
      invariant identities == Ids(cs[..n])
      invariant ValidChapters(cs[..n])
    {
      assert cs[..n + 1] == cs[..n] + [cs[n]];
      if !ValidChapter(cs[n]) {
        return false;
      }
      if cs[n].id in identities {
        var i :| 0 <= i < n && cs[..n][i].id == cs[n].id;
        assert cs[i].id == cs[n].id;
        return false;
      }
      identities := identities + {cs[n].id};
    }
    assert cs[..|cs|] == cs;
    return true;
  }

  /** The limits that every read checks; the number of chapters is checked by `apply` alone. */
  predicate ValidLimits(s: Snapshot) {
    s.secondsRemaining >= 0.0 && s.maxSeconds >= 0.0
  }

  ghost predicate ValidRead(r: Read) {
    r.Some? && ValidChapters(r.value.chapters) && ValidLimits(r.value)
  }

  /** A read that a batch can be planned on. */
  ghost predicate ValidStart(r: Read) {
    ValidRead(r) && r.value.maxChapters >= 0.0
  }

  method ValidatedRead(r: Read) returns (ok: bool)
    ensures ok <==> ValidRead(r)
  {
    if r.None? {
      return false;
    }
    var chapters := ValidatedChapters(r.value.chapters);
    return chapters && ValidLimits(r.value);
  }

  function ProcessingIds(cs: seq<Chapter>): set<string> {
    set i | 0 <= i < |cs| && cs[i].transcoding == Busy :: cs[i].id
  }

  // ---- Comparing lists ----

  /** Equal, except that a processing chapter may have a new file and duration. */
  predicate RowMatches(processing: set<string>, a: Row, b: Row) {
    && a.id == b.id && a.title == b.title && a.kind == b.kind
    && (a.id in processing || (a.file == b.file && a.seconds == b.seconds))
  }

  predicate Matches(actual: seq<Row>, expected: seq<Row>, processing: set<string>) {
    |actual| == |expected| && forall i :: 0 <= i < |actual| ==> RowMatches(processing, actual[i], expected[i])
  }

  /** `matches_chapters` overwrites file and duration of processing rows, then compares whole lists. */
  method MatchesChapters(actual: seq<Row>, expected: seq<Row>, processing: set<string>) returns (ok: bool)
    ensures ok <==> Matches(actual, expected, processing)
  {
    var comparable := actual;
    var n := 0;
    while n < |actual| && n < |expected|
      invariant 0 <= n <= |actual| && n <= |expected|
      invariant |comparable| == |actual|
      invariant forall i :: n <= i < |actual| ==> comparable[i] == actual[i]
      invariant forall i :: 0 <= i < n ==>
        (comparable[i] == expected[i] <==> RowMatches(processing, actual[i], expected[i]))
    {
      if comparable[n].id == expected[n].id && comparable[n].id in processing {
        comparable := comparable[n := comparable[n].(file := expected[n].file, seconds := expected[n].seconds)];
      }
      n := n + 1;
    }
    if |comparable| == |expected| {
      assert forall i :: 0 <= i < n ==>
        (comparable[i] == expected[i] <==> RowMatches(processing, actual[i], expected[i]));
    }
    return comparable == expected;
  }

  /** For fixed processing ids, matching is an equivalence; it only weakens as the ids grow. */
  lemma MatchesIsEquivalence(a: seq<Row>, b: seq<Row>, c: seq<Row>, p: set<string>, q: set<string>)
    requires p <= q
    ensures Matches(a, a, p)
    ensures Matches(a, b, p) ==> Matches(b, a, p)
    ensures Matches(a, b, p) && Matches(b, c, p) ==> Matches(a, c, p)
    ensures Matches(a, b, p) ==> Matches(a, b, q)
  {
    if Matches(a, b, p) {
      forall i | 0 <= i < |a| ensures RowMatches(p, b[i], a[i]) && RowMatches(q, a[i], b[i]) {
        assert RowMatches(p, a[i], b[i]);
      }
      if Matches(b, c, p) {
        forall i | 0 <= i < |a| ensures RowMatches(p, a[i], c[i]) {
          assert RowMatches(p, a[i], b[i]) && RowMatches(p, b[i], c[i]);
        }
      }
    }
  }

  // ---- Reading back ----

  const READBACK_ATTEMPTS := 40

  ghost predicate Confirms(poll: Read, expected: seq<Row>, processing: set<string>) {
    ValidRead(poll) && Matches(Writable(poll.value.chapters), expected, processing)
  }

  /** The first poll that shows the expected list; a failed read, the deadline (no more polls) or the
      last attempt ends the wait without one. */
  ghost function ReadBack(polls: seq<Read>, expected: seq<Row>, processing: set<string>, attempts: nat): (r: Read)
    ensures r.Some? ==> r in polls && Confirms(r, expected, processing)
    decreases attempts
  {
    if attempts == 0 || polls == [] || !ValidRead(polls[0]) then None
    else if Confirms(polls[0], expected, processing) then polls[0]
    else ReadBack(polls[1..], expected, processing, attempts - 1)
  }

  method Readback(polls: seq<Read>, expected: seq<Row>, processing: set<string>) returns (r: Read)
    ensures r == ReadBack(polls, expected, processing, READBACK_ATTEMPTS)
  {
    var n := 0;
    assert polls[0..] == polls;
    while n < READBACK_ATTEMPTS && n < |polls|
      invariant 0 <= n <= READBACK_ATTEMPTS && n <= |polls|
      invariant ReadBack(polls, expected, processing, READBACK_ATTEMPTS)
        == ReadBack(polls[n..], expected, processing, READBACK_ATTEMPTS - n)
    {
      assert polls[n..][0] == polls[n] && polls[n..][1..] == polls[n + 1..];
      var valid := ValidatedRead(polls[n]);
      if !valid {
        return None;
      }
      var same := MatchesChapters(Writable(polls[n].value.chapters), expected, processing);
      if same {
        return polls[n];
      }
      n := n + 1;
    }
    return None;
  }
}
