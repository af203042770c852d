/** What "undone" means: the inverse of a submission was confirmed by the cloud, and left the plan without it. */
module QueueUndone {
  import opened UndoSteps
  import opened CloudContent
  import opened CloudWrite
  import opened CloudLaws
  import opened CloudConfirms
  import opened Queue
  import opened QueueInvariants
  import opened QueueSteps
  import opened QueueRuns
  import opened QueueStatus

  // ---- Where an inverse came from ----

  /** What an `undo` call took over from the submission: its receipt, and what else the inverse uses. */
  ghost predicate SameSubmission(s: State, g: nat, t: State, run: UndoRun) {
    && g < |s.groups| && run.group == g && g < |t.groups|
    && run.key == s.groups[g].key && run.receipt == s.groups[g].receipt
    && t.groups[g].actions == s.groups[g].actions && t.groups[g].owner == s.groups[g].owner
    && t.groups[g].indices == s.groups[g].indices
  }

  /** Step `j` of the run was the `undo` call whose inverse is now call `i`. */
  ghost predicate StartedAt(events: seq<Event>, i: nat, j: nat) {
    && j < |events| && events[j].UndoBegin? && i < |Reached(events).runs|
    && var s := Reached(events[..j]);
       && StartsInverse(s, events[j].action, events[j].session)
       && SameSubmission(s, Offered(s, events[j].action, events[j].session), Reached(events), Reached(events).runs[i])
  }

  lemma BegunRun(s: State, e: Event)
    requires Sane(s) && StoreFits(s) && e.UndoBegin? && CanTake(s, e.action, e.session)
    ensures var t, g := Next(s, e), Offered(s, e.action, e.session);
      && |t.runs| == |s.runs| + 1 && t.runs[..|s.runs|] == s.runs
      && SameSubmission(s, g, t, t.runs[|s.runs|])
      && (t.runs[|s.runs|].phase.Remote? ==> HasReceipt(s, g))
  {
    hide Next, Lookup;
    NextUndoEvents(s, e);
  }

  lemma NoNewRun(s: State, e: Event)
    requires Sane(s) && !(e.UndoBegin? && CanTake(s, e.action, e.session))
    ensures var t := Next(s, e);
      && |t.runs| == |s.runs|
      && forall i :: 0 <= i < |s.runs| ==>
           t.runs[i].(phase := Over) == s.runs[i].(phase := Over)
           && (t.runs[i].phase.Remote? ==> s.runs[i].phase.Remote?)
  {
    hide Next, CanTake, AfterRefusal, InverseDone;
    NextUndoEvents(s, e);
    if e.UndoBegin? {
      SaneParts(s);
      RefusedRuns(s, e.action);
    } else if !e.UndoRecord? && !e.UndoFinish? {
      NextRunsSame(s, e);
    }
  }

  lemma StillSubmission(s: State, g: nat, t: State, u: State, run: UndoRun, e: Event, now: UndoRun)
    requires Sane(t) && SameSubmission(s, g, t, run) && u == Next(t, e) && !t.groups[g].active
    requires now.(phase := Over) == run.(phase := Over)
    ensures SameSubmission(s, g, u, now)
  {
    hide Next, Sane;
    NextGroupsAge(t, e);
    assert now.group == now.(phase := Over).group == run.(phase := Over).group == run.group;
    assert now.key == now.(phase := Over).key == run.(phase := Over).key == run.key;
    assert now.receipt == now.(phase := Over).receipt == run.(phase := Over).receipt == run.receipt;
  }

  lemma RunIsSpent(s: State, i: nat)
    requires Runs(s) && i < |s.runs|
    ensures s.runs[i].group < |s.groups| && !s.groups[s.runs[i].group].active
  {
  }

  lemma {:induction false} StartedAndNext(events: seq<Event>, e: Event, i: nat, j: nat)
    requires StartedAt(events, i, j) && i < |Reached(events + [e]).runs|
    requires Reached(events + [e]).runs[i].(phase := Over) == Reached(events).runs[i].(phase := Over)
    ensures StartedAt(events + [e], i, j)
  {
    hide Reached, Holds, Next, CanTake, HasReceipt, SameSubmission, Runs;
    ReachedOneMore(events, e);
    HoldsParts(Reached(events));
    assert (events + [e])[..j] == events[..j];
    RunIsSpent(Reached(events), i);
    SubmissionGroup(Reached(events[..j]), Offered(Reached(events[..j]), events[j].action, events[j].session),
                    Reached(events), Reached(events).runs[i]);
    StillSubmission(Reached(events[..j]), Offered(Reached(events[..j]), events[j].action, events[j].session),
                    Reached(events), Reached(events + [e]), Reached(events).runs[i], e, Reached(events + [e]).runs[i]);
  }

  lemma SubmissionGroup(s: State, g: nat, t: State, run: UndoRun)
    requires SameSubmission(s, g, t, run)
    ensures run.group == g < |t.groups|
  {
  }

  /** Every inverse that is running was started by one `undo` call of the run, with that submission's receipt. */
  lemma {:induction false} InverseWasStarted(events: seq<Event>, i: nat) returns (j: nat)
    requires i < |Reached(events).runs| && Reached(events).runs[i].phase.Remote?
    ensures StartedAt(events, i, j)
    decreases |events|
  {
    hide Reached, Holds, Next, SameSubmission, CanTake, Runs;
    if events == [] {
      ReachedNothing();
      assert false;
    } else {
      var n := |events| - 1;
      var head, e := events[..n], events[n];
      assert head + [e] == events;
      ReachedOneMore(head, e);
      HoldsParts(Reached(head));
      if e.UndoBegin? && CanTake(Reached(head), e.action, e.session) {
        BegunRun(Reached(head), e);
        if i == |Reached(head).runs| {
          j := n;
        } else {
          assert Reached(events).runs[..|Reached(head).runs|][i] == Reached(events).runs[i];
          j := InverseWasStarted(head, i);
          StartedAndNext(head, e, i, j);
        }
      } else {
        NoNewRun(Reached(head), e);
        j := InverseWasStarted(head, i);
        StartedAndNext(head, e, i, j);
      }
    }
  }

  // ---- What the cloud shows ----

  /** What the inverse of that `undo` call comes to, in the state in which it started: refused when the list changed,
      and otherwise right exactly when no upload's permanent id is a staging id, for edits if no attach repeated an
      id. */
  ghost predicate ComesTo(s: State, g: nat, session: Session, cloud: UndoCloud, outcome: UndoOutcome)
    requires HasReceipt(s, g)
  {
    && Undoable(s, g, session, cloud)
    && (forall i :: i in s.groups[g].indices ==> i < |s.groups[g].receipt.value.steps|)
    && outcome == UndoResult(session, s.groups[g].key, s.groups[g].receipt.value, s.groups[g].indices, cloud)
  }

  lemma OutcomeIsResult(s: State, g: nat, session: Session, t: State, run: UndoRun, cloud: UndoCloud)
    requires HasReceipt(s, g) && SameSubmission(s, g, t, run) && s.groups[g].owner == session
    requires Undoable(s, g, session, cloud)
    ensures ComesTo(s, g, session, cloud, InverseOutcome(t, run, cloud))
  {
    hide UndoResult, Happened, StillMatches, UndoneAs, NoCrossTalk, EditsOnly, Unrepeated, TailOps;
  }

  /** The outcome of a running inverse, whatever happened since it started. */
  lemma {:induction false} InverseComesTo(events: seq<Event>, i: nat, cloud: UndoCloud) returns (j: nat)
    requires i < |Reached(events).runs| && Reached(events).runs[i].phase.Remote?
    ensures StartedAt(events, i, j) && Reached(events).runs[i].receipt.Some?
    ensures Reached(events).runs[i].group < |Reached(events).groups|
    ensures var s, g := Reached(events[..j]), Reached(events).runs[i].group;
      HasReceipt(s, g) && ComesTo(s, g, events[j].session, cloud,
                                  InverseOutcome(Reached(events), Reached(events).runs[i], cloud))
  {
    hide Reached, Holds, Next, CanTake, Undoable, InverseOutcome, ComesTo;
    j := InverseWasStarted(events, i);
    var s, e := Reached(events[..j]), events[j];
    var g := Offered(s, e.action, e.session);
    OfferedIsOwn(s, e.action, e.session);
    UndoRestoresSubmission(events[..j], e.action, e.session, cloud);
    OutcomeIsResult(s, g, e.session, Reached(events), Reached(events).runs[i], cloud);
  }

  /** The cloud came to show the list that the inverse left, or showed it already. */
  ghost predicate CloudShows(receipt: UndoReceipt, cloud: UndoCloud, outcome: UndoOutcome) {
    && cloud.before.Some?
    && (outcome.UndoUnneeded? ||
        (outcome.UndoPatched? && cloud.accepted
         && exists loose :: UndoLoose(receipt, cloud.before.value, loose)
              && EverShown(cloud.polls, Writable(outcome.list), loose)))
  }

  lemma ReturnedIsShown(session: Session, target: string, receipt: UndoReceipt, indices: seq<nat>, cloud: UndoCloud)
    requires forall i :: i in indices ==> i < |receipt.steps|
    requires Returned(UndoResult(session, target, receipt, indices, cloud))
    ensures CloudShows(receipt, cloud, UndoResult(session, target, receipt, indices, cloud))
  {
    hide Matches, ApplySteps, ReadBack, EverShown, UndoLoose;
    if UndoResult(session, target, receipt, indices, cloud).UndoPatched? {
      var loose := UndoConfirmedIff(session, target, receipt, indices, cloud);
    }
  }

  /** Over every run: when an action becomes undone, the submission it belongs to was taken for undo by one earlier
      call; the cloud has shown the list its inverse left; and that list is the plan without the submission, exactly
      when no upload's permanent id is a staging id of the write, for edits if no attach of the write repeated an id. */
  lemma {:induction false} UndoneMeansRestored(events: seq<Event>, e: Event, n: nat) returns (j: nat)
    requires n < |Reached(events).actions| && Becomes(Reached(events), Reached(events + [e]), n, Undone)
    ensures e.UndoRecord? && StartedAt(events, e.run, j)
    ensures n in Reached(events).groups[Reached(events).runs[e.run].group].actions
    ensures var s, run := Reached(events[..j]), Reached(events).runs[e.run];
      && run.receipt.Some? && run.group < |Reached(events).groups| && HasReceipt(s, run.group)
      && var outcome := InverseOutcome(Reached(events), run, e.cloud);
         && ComesTo(s, run.group, events[j].session, e.cloud, outcome)
         && Returned(outcome) && CloudShows(run.receipt.value, e.cloud, outcome)
  {
    hide Reached, Holds, Next, CanTake, Undoable, InverseOutcome, Returned, UndoResult, CloudShows, Becomes;
    StatusIsCaused(events, e, n, Undone);
    j := InverseComesTo(events, e.run, e.cloud);
    var s, run := Reached(events[..j]), Reached(events).runs[e.run];
    ReturnedIsShown(events[j].session, s.groups[run.group].key, run.receipt.value, s.groups[run.group].indices,
                    e.cloud);
  }
}
