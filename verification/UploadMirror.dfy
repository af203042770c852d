/** How a job mirrors its queued upload (app/job_upload.py:40-97): snapshots of the action arrive late, twice or out of
    order, and must not bring back what an undo or a cancel reversed. */
module UploadMirror {
  import opened Lists
  import Queue

  /** The action was undone or canceled. */
  predicate Reversal(status: Queue.Status) {
    status.Undone? || status.Canceled?
  }

  /** What one callback sees of the action: `chapters` are the ids in its content, `accepted` an attachment receipt. */
  datatype Snapshot = Snapshot(status: Queue.Status, chapterId: string, chapters: seq<string>, accepted: bool,
                               needsRefresh: bool, positioned: bool)

  datatype JobStatus = WaitingUpload | Uploading | JobDone | JobFailed | JobUndone | JobCanceled {
    predicate Reversed() {
      JobUndone? || JobCanceled?
    }
  }

  /** The job fields that the mirror writes. `content` says whether a library content is stored. */
  datatype JobState = JobState(status: JobStatus, chapter: Option<string>, content: bool, receipt: bool,
                               positioned: bool, needsRefresh: bool, cancelRequested: bool)

  function Count(ids: seq<string>, id: string): nat {
    if ids == [] then 0 else (if ids[0] == id then 1 else 0) + Count(ids[1..], id)
  }

  /** The upload is confirmed: its chapter is in the content exactly once. */
  predicate Confirmed(a: Snapshot) {
    a.chapterId != "" && Count(a.chapters, a.chapterId) == 1
  }

  /** The action failed; Tonies may still have accepted its attachment. */
  function AfterFailure(j: JobState, a: Snapshot): (r: JobState)
    ensures r.status == if j.status.JobDone? then JobDone else JobFailed
  {
    var failed := if j.status.JobDone? || j.status.JobFailed? then j else j.(status := JobFailed);
    if a.accepted && a.chapterId != ""
    then failed.(chapter := Some(a.chapterId), receipt := true, needsRefresh := true, content := false)
    else failed
  }

  /** The action is done; a job that already failed keeps that status, but records the chapter. */
  function AfterSuccess(j: JobState, a: Snapshot): (r: JobState)
    ensures r.status.JobDone? || r.status.JobFailed?
  {
    if !Confirmed(a) then j.(status := JobFailed)
    else
      j.(chapter := Some(a.chapterId), content := true, positioned := a.positioned,
         status := if j.status.JobFailed? then JobFailed else JobDone)
  }

  function Mirrored(j: JobState, a: Snapshot): JobState {
    if j.status.Reversed() then j
    else if Reversal(a.status) then
      JobState(if a.status.Undone? then JobUndone else JobCanceled, None, false, false, false, false, true)
    else if a.status.Done? && a.needsRefresh then j.(needsRefresh := true)
    else if a.status.Transferring? then (if j.status.WaitingUpload? then j.(status := Uploading) else j)
    else if a.status.Failed? then AfterFailure(j, a)
    else if a.status.Done? then AfterSuccess(j, a)
    else j
  }

  function MirroredAll(j: JobState, snapshots: seq<Snapshot>): JobState
    decreases |snapshots|
  {
    if snapshots == [] then j
    else Mirrored(MirroredAll(j, snapshots[..|snapshots| - 1]), snapshots[|snapshots| - 1])
  }

  /** The job object, changed case by case under `_upload_mirror_lock`. */
  class Job {
    var status: JobStatus
    var chapter: Option<string>
    var content: bool
    var receipt: bool
    var positioned: bool
    var needsRefresh: bool
    var cancelRequested: bool

    ghost function State(): JobState
      reads this
    {
      JobState(status, chapter, content, receipt, positioned, needsRefresh, cancelRequested)
    }

    constructor ()
      ensures State() == JobState(WaitingUpload, None, false, false, false, false, false)
    {
      status, chapter := WaitingUpload, None;
      content, receipt, positioned, needsRefresh, cancelRequested := false, false, false, false, false;
    }

    static method CountOf(ids: seq<string>, id: string) returns (n: nat)
      ensures n == Count(ids, id)
    {
      n := 0;
      var i := |ids|;
      while i > 0
        invariant 0 <= i <= |ids| && n == Count(ids[i..], id)
      {
        i := i - 1;
        assert ids[i..][1..] == ids[i + 1..];
        if ids[i] == id {
          n := n + 1;
        }
      }
      assert ids[0..] == ids;
    }

    /** `_mirror_upload_action` */
    method Mirror(a: Snapshot)
      modifies this
      ensures State() == Mirrored(old(State()), a)
    {
      if status.Reversed() {
        return;
      }
      if Reversal(a.status) {
        status := if a.status.Undone? then JobUndone else JobCanceled;
        cancelRequested, needsRefresh := true, false;
        chapter, content, receipt, positioned := None, false, false, false;
        return;
      }
      if a.status.Done? && a.needsRefresh {
        needsRefresh := true;
        return;
      }
      if a.status.Transferring? {
        if status.WaitingUpload? {
          status := Uploading;
        }
      } else if a.status.Failed? {
        if !status.JobDone? && !status.JobFailed? {
          status := JobFailed;
        }
        if a.accepted && a.chapterId != "" {
          chapter, receipt, needsRefresh, content := Some(a.chapterId), true, true, false;
        }
      } else if a.status.Done? {
        var count := CountOf(a.chapters, a.chapterId);
        if a.chapterId == "" || count != 1 {
          status := JobFailed;
          return;
        }
        chapter, content, positioned := Some(a.chapterId), true, a.positioned;
        if status.JobFailed? {
          return;
        }
        status := JobDone;
      }
    }
  }

  // ---- Reversal is final ----

  /** A reversed job claims nothing: no chapter, no content, no attachment receipt. */
  ghost predicate Withdrawn(j: JobState) {
    j.status.Reversed() ==>
      j.chapter.None? && !j.content && !j.receipt && !j.positioned && !j.needsRefresh && j.cancelRequested
  }

  lemma OneNotReversed(j: JobState, a: Snapshot)
    requires !j.status.Reversed() && !Reversal(a.status)
    ensures !Mirrored(j, a).status.Reversed()
  {
    hide AfterFailure, AfterSuccess;
  }

  lemma OneStaysWithdrawn(j: JobState, a: Snapshot)
    requires Withdrawn(j)
    ensures Withdrawn(Mirrored(j, a))
  {
    hide AfterFailure, AfterSuccess;
    if !j.status.Reversed() && !Reversal(a.status) { OneNotReversed(j, a); }
  }

  lemma {:induction false} StaysWithdrawn(j: JobState, snapshots: seq<Snapshot>)
    requires Withdrawn(j)
    ensures Withdrawn(MirroredAll(j, snapshots))
    decreases |snapshots|
  {
    hide Withdrawn, Mirrored;
    if snapshots != [] {
      StaysWithdrawn(j, snapshots[..|snapshots| - 1]);
      OneStaysWithdrawn(MirroredAll(j, snapshots[..|snapshots| - 1]), snapshots[|snapshots| - 1]);
    }
  }

  lemma {:induction false} MirroredSplits(j: JobState, before: seq<Snapshot>, after: seq<Snapshot>)
    ensures MirroredAll(j, before + after) == MirroredAll(MirroredAll(j, before), after)
    decreases |after|
  {
    if after == [] {
      assert before + after == before;
    } else {
      var n := |after| - 1;
      assert (before + after)[..|before + after| - 1] == before + after[..n];
      MirroredSplits(j, before, after[..n]);
    }
  }

  lemma {:induction false} ReversedStays(j: JobState, after: seq<Snapshot>)
    requires j.status.Reversed()
    ensures MirroredAll(j, after) == j
    decreases |after|
  {
    if after != [] { ReversedStays(j, after[..|after| - 1]); }
  }

  /** Wherever the first reversal is among the snapshots, and whatever stale or repeated ones come before or after it,
      the job ends reversed by it and claims nothing. */
  lemma {:induction false} ReversalIsFinal(j: JobState, before: seq<Snapshot>, a: Snapshot, after: seq<Snapshot>)
    requires !j.status.Reversed() && Reversal(a.status)
    requires forall i :: 0 <= i < |before| ==> !Reversal(before[i].status)
    ensures MirroredAll(j, before + [a] + after)
            == JobState(if a.status.Undone? then JobUndone else JobCanceled, None, false, false, false, false, true)
  {
    NotReversed(j, before);
    MirroredSplits(j, before + [a], after);
    MirroredSplits(j, before, [a]);
    assert [a][..0] == [];
    assert MirroredAll(MirroredAll(j, before), [a]) == Mirrored(MirroredAll(MirroredAll(j, before), []), a);
    ReversedStays(MirroredAll(j, before + [a]), after);
  }

  lemma {:induction false} NotReversed(j: JobState, before: seq<Snapshot>)
    requires !j.status.Reversed() && forall i :: 0 <= i < |before| ==> !Reversal(before[i].status)
    ensures !MirroredAll(j, before).status.Reversed()
    decreases |before|
  {
    hide Mirrored;
    if before != [] {
      NotReversed(j, before[..|before| - 1]);
      OneNotReversed(MirroredAll(j, before[..|before| - 1]), before[|before| - 1]);
    }
  }

  // ---- What a finished job claims ----

  /** The chapter a job claims came from a snapshot that confirmed it, or from one that carried an
      attachment receipt. */
  ghost predicate Claimed(j: JobState, snapshots: seq<Snapshot>) {
    && (j.status.JobDone? ==> j.chapter.Some?)
    && (j.content ==> j.chapter.Some? && exists i :: 0 <= i < |snapshots| && ConfirmedAs(snapshots[i], j.chapter))
    && (j.chapter.Some? ==> exists i :: 0 <= i < |snapshots| && Vouches(snapshots[i], j.chapter))
  }

  ghost predicate ConfirmedAs(a: Snapshot, chapter: Option<string>) {
    a.status.Done? && Confirmed(a) && chapter == Some(a.chapterId)
  }

  ghost predicate Vouches(a: Snapshot, chapter: Option<string>) {
    ConfirmedAs(a, chapter) || (a.status.Failed? && a.accepted && chapter == Some(a.chapterId))
  }

  /** The claims of `k` are those of `j`, or new ones that the snapshot vouches for. */
  ghost predicate ClaimsNext(j: JobState, a: Snapshot, k: JobState) {
    && (k.status.JobDone? ==> k.chapter.Some?) && (k.content ==> k.chapter.Some?)
    && (k.chapter.Some? ==> k.chapter == j.chapter || Vouches(a, k.chapter))
    && (k.content ==> (j.content && k.chapter == j.chapter) || ConfirmedAs(a, k.chapter))
  }

  lemma FailureClaims(j: JobState, a: Snapshot)
    requires (j.status.JobDone? ==> j.chapter.Some?) && (j.content ==> j.chapter.Some?) && a.status.Failed?
    ensures ClaimsNext(j, a, AfterFailure(j, a))
  {
    hide Confirmed;
  }

  lemma SuccessClaims(j: JobState, a: Snapshot)
    requires (j.status.JobDone? ==> j.chapter.Some?) && (j.content ==> j.chapter.Some?) && a.status.Done?
    ensures ClaimsNext(j, a, AfterSuccess(j, a))
  {
    hide Confirmed;
  }

  lemma OneClaim(j: JobState, a: Snapshot)
    requires j.status.JobDone? ==> j.chapter.Some?
    requires j.content ==> j.chapter.Some?
    ensures ClaimsNext(j, a, Mirrored(j, a))
  {
    hide AfterFailure, AfterSuccess, Vouches, ConfirmedAs;
    if a.status.Failed? { FailureClaims(j, a); }
    if a.status.Done? { SuccessClaims(j, a); }
  }

  /** A job never reports success, or a chapter, that no snapshot vouched for. */
  lemma {:induction false} ClaimsAreVouchedFor(j: JobState, snapshots: seq<Snapshot>)
    requires !j.status.JobDone? && j.chapter.None? && !j.content
    ensures Claimed(MirroredAll(j, snapshots), snapshots)
    decreases |snapshots|
  {
    hide Mirrored, Vouches, ConfirmedAs;
    if snapshots != [] {
      var n := |snapshots| - 1;
      ClaimsAreVouchedFor(j, snapshots[..n]);
      var was, now := MirroredAll(j, snapshots[..n]), MirroredAll(j, snapshots);
      OneClaim(was, snapshots[n]);
      if now.chapter.Some? && now.chapter == was.chapter {
        var i :| 0 <= i < n && Vouches(snapshots[..n][i], was.chapter);
        assert Vouches(snapshots[i], now.chapter);
      }
      if now.content && was.content && now.chapter == was.chapter {
        var i :| 0 <= i < n && ConfirmedAs(snapshots[..n][i], was.chapter);
        assert ConfirmedAs(snapshots[i], now.chapter);
      }
    }
  }

  // ---- How a job ends ----

  /** The id is there, once. */
  ghost predicate Once(ids: seq<string>, id: string) {
    exists i :: OnlyAt(ids, id, i)
  }

  ghost predicate OnlyAt(ids: seq<string>, id: string, i: int) {
    0 <= i < |ids| && ids[i] == id && forall k :: 0 <= k < |ids| && ids[k] == id ==> k == i
  }

  lemma OnlyAtTail(ids: seq<string>, id: string, i: int)
    requires ids != [] && i > 0
    ensures OnlyAt(ids, id, i) <==> ids[0] != id && OnlyAt(ids[1..], id, i - 1)
  {
    assert forall k :: 0 < k < |ids| ==> ids[k] == ids[1..][k - 1];
    assert forall k :: 0 <= k < |ids| - 1 ==> ids[1..][k] == ids[k + 1];
  }

  lemma OnlyFirst(ids: seq<string>, id: string)
    requires ids != []
    ensures OnlyAt(ids, id, 0) <==> ids[0] == id && id !in ids[1..]
  {
    assert forall k :: 0 < k < |ids| ==> ids[k] == ids[1..][k - 1];
    assert forall k :: 0 <= k < |ids| - 1 ==> ids[1..][k] == ids[k + 1];
  }

  lemma {:induction false} CountIsZero(ids: seq<string>, id: string)
    ensures Count(ids, id) == 0 <==> id !in ids
  {
    if ids != [] { CountIsZero(ids[1..], id); }
  }

  lemma OnceTail(ids: seq<string>, id: string)
    requires ids != []
    ensures Once(ids, id) <==> if ids[0] == id then id !in ids[1..] else Once(ids[1..], id)
  {
    hide OnlyAt;
    OnlyFirst(ids, id);
    forall i | i > 0 ensures OnlyAt(ids, id, i) <==> ids[0] != id && OnlyAt(ids[1..], id, i - 1) {
      OnlyAtTail(ids, id, i);
    }
    OnlyIsIndex(ids, id);
    OnlyIsIndex(ids[1..], id);
    if i :| OnlyAt(ids[1..], id, i) { OnlyAtTail(ids, id, i + 1); }
  }

  lemma OnlyIsIndex(ids: seq<string>, id: string)
    ensures forall i :: OnlyAt(ids, id, i) ==> i >= 0
  {
  }

  lemma {:induction false} CountIsOne(ids: seq<string>, id: string)
    ensures Count(ids, id) == 1 <==> Once(ids, id)
  {
    hide Once;
    if ids == [] {
      NothingOnce(id);
    } else {
      OnceTail(ids, id);
      CountIsZero(ids[1..], id);
      CountIsOne(ids[1..], id);
    }
  }

  lemma NothingOnce(id: string)
    ensures !Once([], id)
  {
  }

  /** The action is done, nothing is left to refresh, and its chapter is in the content once. */
  ghost predicate Succeeded(a: Snapshot) {
    a.status.Done? && !a.needsRefresh && a.chapterId != "" && Once(a.chapters, a.chapterId)
  }

  /** Done, but its chapter is not there, or not once. */
  ghost predicate Unproved(a: Snapshot) {
    a.status.Done? && !a.needsRefresh && !(a.chapterId != "" && Once(a.chapters, a.chapterId))
  }

  lemma ConfirmedOnce(a: Snapshot)
    ensures Confirmed(a) <==> a.chapterId != "" && Once(a.chapters, a.chapterId)
  {
    CountIsOne(a.chapters, a.chapterId);
  }

  /** A job fails if it had failed; if an action is done without its chapter; or if an action failed before any
      succeeded, unless the job was done already. */
  ghost predicate EndsFailed(status: JobStatus, snapshots: seq<Snapshot>) {
    || status.JobFailed?
    || (exists i :: 0 <= i < |snapshots| && Unproved(snapshots[i]))
    || (!status.JobDone? && exists i :: FailsFirst(snapshots, i))
  }

  ghost predicate FailsFirst(snapshots: seq<Snapshot>, i: int) {
    0 <= i < |snapshots| && snapshots[i].status.Failed? && forall k :: 0 <= k < i ==> !Succeeded(snapshots[k])
  }

  ghost predicate AnySucceeded(snapshots: seq<Snapshot>) {
    exists i :: 0 <= i < |snapshots| && Succeeded(snapshots[i])
  }

  ghost predicate AnyTransferring(snapshots: seq<Snapshot>) {
    exists i :: 0 <= i < |snapshots| && snapshots[i].status.Transferring?
  }

  /** The status a job ends with, by the status it had and what it is shown. */
  ghost function EndStatus(status: JobStatus, snapshots: seq<Snapshot>): JobStatus {
    if EndsFailed(status, snapshots) then JobFailed
    else if status.JobDone? || AnySucceeded(snapshots) then JobDone
    else if status.Uploading? || AnyTransferring(snapshots) then Uploading
    else WaitingUpload
  }

  lemma OneStatus(j: JobState, a: Snapshot)
    requires !j.status.Reversed() && !Reversal(a.status)
    ensures Mirrored(j, a).status
            == if j.status.JobFailed? || Unproved(a) || (a.status.Failed? && !j.status.JobDone?) then JobFailed
               else if j.status.JobDone? || Succeeded(a) then JobDone
               else if j.status.Uploading? || a.status.Transferring? then Uploading
               else WaitingUpload
  {
    hide Confirmed, Once;
    ConfirmedOnce(a);
  }

  lemma EndsOneMore(status: JobStatus, head: seq<Snapshot>, a: Snapshot)
    ensures EndsFailed(status, head + [a])
            <==> EndsFailed(status, head) || Unproved(a)
                 || (a.status.Failed? && !status.JobDone? && !AnySucceeded(head))
    ensures AnySucceeded(head + [a]) <==> AnySucceeded(head) || Succeeded(a)
    ensures AnyTransferring(head + [a]) <==> AnyTransferring(head) || a.status.Transferring?
  {
    hide Succeeded, Unproved;
    var all, n := head + [a], |head|;
    assert all[n] == a && forall i :: 0 <= i < n ==> all[i] == head[i];
    forall i | 0 <= i < n ensures FailsFirst(all, i) <==> FailsFirst(head, i) { }
    assert FailsFirst(all, n) <==> a.status.Failed? && !AnySucceeded(head);
  }

  /** Whatever snapshots arrive, unless one shows a reversal, the job ends with exactly this status. */
  lemma {:induction false} JobEnds(j: JobState, snapshots: seq<Snapshot>)
    requires !j.status.Reversed() && forall i :: 0 <= i < |snapshots| ==> !Reversal(snapshots[i].status)
    ensures MirroredAll(j, snapshots).status == EndStatus(j.status, snapshots)
    decreases |snapshots|
  {
    hide Mirrored, Succeeded, Unproved, EndsFailed, AnySucceeded, AnyTransferring;
    if snapshots == [] {
      NothingShown(j.status);
    } else {
      var n := |snapshots| - 1;
      JobEnds(j, snapshots[..n]);
      NotReversed(j, snapshots[..n]);
      OneStatus(MirroredAll(j, snapshots[..n]), snapshots[n]);
      EndsOneMore(j.status, snapshots[..n], snapshots[n]);
      assert snapshots[..n] + [snapshots[n]] == snapshots;
    }
  }

  lemma NothingShown(status: JobStatus)
    ensures EndsFailed(status, []) <==> status.JobFailed?
    ensures !AnySucceeded([]) && !AnyTransferring([])
  {
  }

  /** The cloud accepted the attachment of an action that failed. */
  ghost predicate AcceptedAnyway(a: Snapshot) {
    a.status.Failed? && a.accepted && a.chapterId != ""
  }

  /** Snapshot `i` is the last that says which chapter the upload became. */
  ghost predicate LastClaim(snapshots: seq<Snapshot>, i: int) {
    && 0 <= i < |snapshots| && (Succeeded(snapshots[i]) || AcceptedAnyway(snapshots[i]))
    && forall k :: i < k < |snapshots| ==> !Succeeded(snapshots[k]) && !AcceptedAnyway(snapshots[k])
  }

  ghost predicate LastSuccess(snapshots: seq<Snapshot>, i: int) {
    && 0 <= i < |snapshots| && Succeeded(snapshots[i])
    && forall k :: i < k < |snapshots| ==> !Succeeded(snapshots[k])
  }

  /** What the job records: the chapter of the last claim, and a content if that one was a success; a receipt if any
      failed action was accepted; and that the library must be refreshed if any snapshot says so. */
  ghost predicate Records(j: JobState, snapshots: seq<Snapshot>, k: JobState) {
    && (forall i :: LastClaim(snapshots, i) ==>
          k.chapter == Some(snapshots[i].chapterId) && k.content == Succeeded(snapshots[i]))
    && ((forall i :: !LastClaim(snapshots, i)) ==> k.chapter == j.chapter && k.content == j.content)
    && (forall i :: LastSuccess(snapshots, i) ==> k.positioned == snapshots[i].positioned)
    && ((forall i :: !LastSuccess(snapshots, i)) ==> k.positioned == j.positioned)
    && (k.receipt <==> j.receipt || exists i :: 0 <= i < |snapshots| && AcceptedAnyway(snapshots[i]))
    && (k.needsRefresh <==> j.needsRefresh || exists i :: 0 <= i < |snapshots| && AsksRefresh(snapshots[i]))
    && k.cancelRequested == j.cancelRequested
  }

  ghost predicate AsksRefresh(a: Snapshot) {
    AcceptedAnyway(a) || (a.status.Done? && a.needsRefresh)
  }

  lemma OneRecord(j: JobState, a: Snapshot)
    requires !j.status.Reversed() && !Reversal(a.status)
    ensures var k := Mirrored(j, a);
      && k.chapter == (if Succeeded(a) || AcceptedAnyway(a) then Some(a.chapterId) else j.chapter)
      && k.content == (if Succeeded(a) then true else if AcceptedAnyway(a) then false else j.content)
      && k.positioned == (if Succeeded(a) then a.positioned else j.positioned)
      && k.receipt == (j.receipt || AcceptedAnyway(a)) && k.needsRefresh == (j.needsRefresh || AsksRefresh(a))
      && k.cancelRequested == j.cancelRequested
  {
    hide Confirmed, Once;
    ConfirmedOnce(a);
  }

  lemma LastOneMore(head: seq<Snapshot>, a: Snapshot)
    ensures forall i :: LastClaim(head + [a], i)
              <==> if Succeeded(a) || AcceptedAnyway(a) then i == |head| else LastClaim(head, i)
    ensures forall i :: LastSuccess(head + [a], i) <==> if Succeeded(a) then i == |head| else LastSuccess(head, i)
  {
    hide Succeeded, AcceptedAnyway;
    var all, n := head + [a], |head|;
    assert all[n] == a && forall i :: 0 <= i < n ==> all[i] == head[i];
  }

  lemma RecordsOneMore(j: JobState, head: seq<Snapshot>, a: Snapshot, was: JobState)
    requires !was.status.Reversed() && !Reversal(a.status) && Records(j, head, was)
    ensures Records(j, head + [a], Mirrored(was, a))
  {
    hide Mirrored, Succeeded, AcceptedAnyway, LastClaim, LastSuccess, AsksRefresh;
    var all, n := head + [a], |head|;
    OneRecord(was, a);
    LastOneMore(head, a);
    LastsAreShown(head);
    assert all[n] == a && forall i :: 0 <= i < n ==> all[i] == head[i];
    RecordedFlags(head, a);
    assert LastClaim(all, n) <==> Succeeded(a) || AcceptedAnyway(a);
    assert LastSuccess(all, n) <==> Succeeded(a);
  }

  lemma LastsAreShown(head: seq<Snapshot>)
    ensures forall i :: LastClaim(head, i) || LastSuccess(head, i) ==> 0 <= i < |head|
  {
  }

  lemma RecordedFlags(head: seq<Snapshot>, a: Snapshot)
    ensures var all := head + [a];
      && ((exists i :: 0 <= i < |all| && AcceptedAnyway(all[i]))
          <==> AcceptedAnyway(a) || exists i :: 0 <= i < |head| && AcceptedAnyway(head[i]))
      && ((exists i :: 0 <= i < |all| && AsksRefresh(all[i]))
          <==> AsksRefresh(a) || exists i :: 0 <= i < |head| && AsksRefresh(head[i]))
  {
    hide AcceptedAnyway, AsksRefresh;
    var all, n := head + [a], |head|;
    assert all[n] == a && forall i :: 0 <= i < n ==> all[i] == head[i];
  }

  /** Whatever snapshots arrive, unless one shows a reversal, the job ends with exactly these records. */
  lemma {:induction false} JobRecords(j: JobState, snapshots: seq<Snapshot>)
    requires !j.status.Reversed() && forall i :: 0 <= i < |snapshots| ==> !Reversal(snapshots[i].status)
    ensures Records(j, snapshots, MirroredAll(j, snapshots))
    decreases |snapshots|
  {
    hide Mirrored, Records;
    if snapshots == [] {
      NothingRecorded(j);
    } else {
      var n := |snapshots| - 1;
      JobRecords(j, snapshots[..n]);
      NotReversed(j, snapshots[..n]);
      RecordsOneMore(j, snapshots[..n], snapshots[n], MirroredAll(j, snapshots[..n]));
      assert snapshots[..n] + [snapshots[n]] == snapshots;
    }
  }

  lemma NothingRecorded(j: JobState)
    ensures Records(j, [], j)
  {
  }
}
