/** The action queue and the undo store (app/actions.py, app/undo.py) as a step machine. Each event is one block
    run under the queue's condition, or a moment at which another thread, the clock or the cloud acts. */
module Queue {
  import opened Lists
  import opened Planner
  import opened UndoSteps
  import opened CloudWrite
  import opened CloudLaws

  /** `target_key` of an editor URL. */
  type Key = string

  datatype Status = Queued | Transferring | Ready | Applying | Done | Failed | Undone | Canceled {
    predicate Waiting() {
      Queued? || Transferring? || Ready? || Applying?
    }
  }

  /** One action object. Its number is its index in `State.actions`, in submission order. */
  datatype Action = Action(key: Key, op: Op, status: Status, finished: bool, group: nat, session: Session,
      readyAt: real)
  {
    predicate IsUpload() {
      op.Attach?
    }
  }

  /** `UndoGroup`: one submission and its undo capability. */
  datatype Group = Group(
    key: Key, actions: seq<nat>, owner: Session, deadline: real,
    pending: bool, active: bool, receipt: Option<UndoReceipt>, indices: seq<nat>)
  {
    function Invalidated(): Group {
      this.(active := false, receipt := None)
    }

    predicate Expired(now: real, closed: set<Session>) {
      now >= deadline || owner in closed
    }

    /** `available` also invalidates an expired group. */
    function Touched(now: real, closed: set<Session>): Group {
      if Expired(now, closed) then Invalidated() else this
    }

    predicate Available(now: real, closed: set<Session>) {
      !Expired(now, closed) && active && (pending || receipt.Some?)
    }
  }

  /** The worker thread of one Tonie: holding the lock, waiting on the condition, in the batch window, or in
      `api.apply`. */
  datatype Worker = Awake | Asleep(until: Option<real>) | Collecting | Writing(batch: seq<nat>)

  datatype Phase = Remote | Recorded | Over

  /** One `undo` call that consumed a capability. */
  datatype UndoRun = UndoRun(key: Key, group: nat, receipt: Option<UndoReceipt>, phase: Phase)

  /** The last successful PATCH of a Tonie, and the actions it carried. */
  datatype LastWrite = LastWrite(batch: seq<nat>, write: Write)

  /** `latest` is the insertion-ordered dict of the store. `entered` and `lastWrite` are history. */
  datatype State = State(
    now: real,
    actions: seq<Action>,
    listed: set<nat>,
    groups: seq<Group>,
    latest: seq<nat>,
    undoing: set<Key>,
    workers: map<Key, Worker>,
    unsent: set<nat>,
    transit: set<nat>,
    closed: set<Session>,
    runs: seq<UndoRun>,
    entered: seq<nat>,
    lastWrite: map<Key, LastWrite>)

  const INIT := State(0.0, [], {}, [], [], {}, map[], {}, {}, {}, [], [], map[])

  const DELETE_DELAY := 5.0
  const UNDO_TTL := 600.0
  const MAX_UNDO_TARGETS := 300
  const MAX_HISTORY := 300

  /** What one `_apply` meets: the session the API getter returns and the cloud, or an exception with some text that
      ends the attempt. The app's own refusals come out of `Called`, and always carry a text. */
  datatype ApplyCall =
    | Raised(text: string)
    | Called(session: Session, retitle: TitleRule, cloud: Cloud)

  datatype Prepared = Sent(fileId: string, seconds: real) | NotSent(text: string)

  datatype Event =
    | Tick(elapsed: real)
    | Submit(key: Key, ops: seq<Op>, session: Session)
    | SubmitUpload(key: Key, title: string, position: Position, session: Session)
    | Cancel(action: nat)
    | UndoBegin(action: nat, session: Session)
    | UndoRecord(run: nat, cloud: UndoCloud)
    | UndoFinish(run: nat)
    | TransferBegin(action: nat)
    | TransferEnd(action: nat, prepared: Prepared)
    | Wake(key: Key)
    | WorkerLook(key: Key, lag: real)
    | WorkerCollect(key: Key)
    | WorkerDone(key: Key, call: ApplyCall)
    | Reset
    | Close(session: Session)
    | Probe(action: nat)

  // ---- Action updates ----

  /** `_set` */
  function SetAll(actions: seq<Action>, which: seq<nat>, status: Status): (r: seq<Action>)
    ensures |r| == |actions|
    ensures forall n :: 0 <= n < |actions| ==> r[n] == if n in which then actions[n].(status := status) else actions[n]
  {
    seq(|actions|, n requires 0 <= n < |actions| => if n in which then actions[n].(status := status) else actions[n])
  }

  /** `_cancel` and `_finish` also set the `finished` event. */
  function Settled(a: Action, status: Status): Action {
    a.(status := status, finished := true)
  }

  function SettleAll(actions: seq<Action>, which: seq<nat>, status: Status): (r: seq<Action>)
    ensures |r| == |actions|
    ensures forall n :: 0 <= n < |actions| ==> r[n] == if n in which then Settled(actions[n], status) else actions[n]
  {
    seq(|actions|, n requires 0 <= n < |actions| => if n in which then Settled(actions[n], status) else actions[n])
  }

  /** `_finish`: an empty error text counts as no error. */
  function Outcome(failed: bool): Status {
    if failed then Failed else Done
  }

  function IndexOf(batch: seq<nat>, n: nat): (i: nat)
    requires n in batch
    ensures i < |batch| && batch[i] == n
    ensures forall j :: 0 <= j < i ==> batch[j] != n
  {
    if batch[0] == n then 0 else 1 + IndexOf(batch[1..], n)
  }

  function FinishAll(actions: seq<Action>, batch: seq<nat>, results: seq<OpResult>): (r: seq<Action>)
    requires |results| == |batch|
    ensures |r| == |actions|
    ensures forall n :: 0 <= n < |actions| ==>
      r[n] == if n in batch then Settled(actions[n], Outcome(results[IndexOf(batch, n)].error.Some?)) else actions[n]
  {
    seq(|actions|, n requires 0 <= n < |actions| =>
      if n in batch then Settled(actions[n], Outcome(results[IndexOf(batch, n)].error.Some?)) else actions[n])
  }

  function InvalidateAll(groups: seq<Group>, which: set<nat>): (r: seq<Group>)
    ensures |r| == |groups|
    ensures forall g :: 0 <= g < |groups| ==> r[g] == if g in which then groups[g].Invalidated() else groups[g]
  {
    seq(|groups|, g requires 0 <= g < |groups| => if g in which then groups[g].Invalidated() else groups[g])
  }

  /** `notify_all` */
  function NotifyAll(workers: map<Key, Worker>): (r: map<Key, Worker>)
    ensures r.Keys == workers.Keys
    ensures forall k :: k in r ==> r[k] == if workers[k].Asleep? then Awake else workers[k]
  {
    map k | k in workers :: if workers[k].Asleep? then Awake else workers[k]
  }

  function EnsureWorker(workers: map<Key, Worker>, key: Key): map<Key, Worker> {
    if key in workers then workers else workers[key := Awake]
  }

  // ---- The ready batch ----

  predicate Pending(s: State, key: Key, n: nat) {
    n < |s.actions| && n in s.listed && s.actions[n].key == key && s.actions[n].status.Waiting()
  }

  /** An action may enter the next write: no inverse is in flight, nothing up to it is deferred, and an upload also
      waits for every upload before it. */
  predicate Batchable(s: State, key: Key, n: nat) {
    && key !in s.undoing && Pending(s, key, n)
    && (forall m | 0 <= m <= n && Pending(s, key, m) :: s.actions[m].readyAt <= s.now)
    && (if s.actions[n].IsUpload()
        then forall m | 0 <= m <= n && Pending(s, key, m) && s.actions[m].IsUpload() :: s.actions[m].status == Ready
        else s.actions[n].status == Queued)
  }

  /** The batchable actions below `bound`, in submission order. */
  function BatchBelow(s: State, key: Key, bound: nat): (r: seq<nat>)
    ensures forall n: nat :: n in r <==> n < bound && Batchable(s, key, n)
    ensures forall i, j :: 0 <= i < j < |r| ==> r[i] < r[j]
  {
    if bound == 0 then []
    else
      var r := BatchBelow(s, key, bound - 1);
      assert forall i :: 0 <= i < |r| ==> r[i] in r;
      if Batchable(s, key, bound - 1) then r + [bound - 1] else r
  }

  /** `_ready_batch` */
  function ReadyBatch(s: State, key: Key): (r: seq<nat>)
    ensures forall n: nat :: n in r <==> Batchable(s, key, n)
    ensures forall i, j :: 0 <= i < j < |r| ==> r[i] < r[j]
  {
    BatchBelow(s, key, |s.actions|)
  }

  predicate Deferred(s: State, key: Key, n: nat) {
    Pending(s, key, n) && s.actions[n].status == Queued && s.actions[n].readyAt > s.now
  }

  /** The earliest deadline of a deferred action below `bound`. */
  function DeadlineBelow(s: State, key: Key, bound: nat): (r: Option<real>)
    ensures forall n: nat :: n < bound && Deferred(s, key, n) ==> r.Some? && r.value <= s.actions[n].readyAt
    ensures r.Some? ==> exists n: nat :: n < bound && Deferred(s, key, n) && r.value == s.actions[n].readyAt
  {
    if bound == 0 then None
    else
      var r := DeadlineBelow(s, key, bound - 1);
      var n := bound - 1;
      if Deferred(s, key, n) && (r.None? || s.actions[n].readyAt < r.value) then Some(s.actions[n].readyAt) else r
  }

  // ---- The undo store ----

  /** `latest.get(key)` */
  function Lookup(groups: seq<Group>, latest: seq<nat>, key: Key): (r: Option<nat>)
    requires forall g :: g in latest ==> g < |groups|
    ensures r.Some? ==> r.value in latest && groups[r.value].key == key
    ensures r.None? ==> forall g :: g in latest ==> groups[g].key != key
  {
    if latest == [] then None
    else if (assert latest[0] in latest; groups[latest[0]].key == key) then Some(latest[0])
    else
      assert forall g :: g in latest[1..] ==> g in latest;
      Lookup(groups, latest[1..], key)
  }

  /** The entries that stay when a submission for `key` is registered: other Tonies, not expired. */
  function Kept(groups: seq<Group>, latest: seq<nat>, key: Key, now: real): (r: seq<nat>)
    requires forall g :: g in latest ==> g < |groups|
    ensures forall g :: g in r <==> g in latest && groups[g].key != key && now < groups[g].deadline
    ensures |r| <= |latest|
  {
    if latest == [] then []
    else
      assert forall g :: g in latest[1..] ==> g in latest;
      assert latest[0] in latest && forall g :: g in latest <==> g == latest[0] || g in latest[1..];
      var rest := Kept(groups, latest[1..], key, now);
      if groups[latest[0]].key != key && now < groups[latest[0]].deadline then [latest[0]] + rest else rest
  }

  /** The newest entries, leaving room for one more. */
  function Newest(latest: seq<nat>): (r: seq<nat>)
    ensures |r| < MAX_UNDO_TARGETS
    ensures forall g :: g in r ==> g in latest
  {
    if |latest| < MAX_UNDO_TARGETS then latest else latest[|latest| - (MAX_UNDO_TARGETS - 1)..]
  }

  function ToSet(xs: seq<nat>): (r: set<nat>)
    ensures forall x :: x in r <==> x in xs
  {
    set x | x in xs
  }

  predicate DefersDeletes(ops: seq<Op>) {
    (exists k :: 0 <= k < |ops| && ops[k].Delete?) && !(exists k :: 0 <= k < |ops| && ops[k].Clear?)
  }

  function Numbers(first: nat, count: nat): (r: seq<nat>)
    ensures |r| == count && forall i :: 0 <= i < count ==> r[i] == first + i
    ensures forall n: nat :: n in r <==> first <= n < first + count
  {
    if count == 0 then [] else Numbers(first, count - 1) + [first + count - 1]
  }

  predicate StoreFits(s: State) {
    forall g :: g in s.latest ==> g < |s.groups|
  }

  /** `register` and the new action objects of one submission. */
  function Registered(s: State, key: Key, ops: seq<Op>, session: Session): (t: State)
    requires StoreFits(s)
  {
    var pending := DefersDeletes(ops);
    var deadline := s.now + (if pending then DELETE_DELAY else UNDO_TTL);
    var numbers := Numbers(|s.actions|, |ops|);
    var kept := Newest(Kept(s.groups, s.latest, key, s.now));
    var group := Group(key, numbers, session, deadline, pending, true, None, []);
    s.(groups := InvalidateAll(s.groups, ToSet(s.latest) - ToSet(kept)) + [group],
       latest := kept + [|s.groups|],
       actions := s.actions + NewActions(key, ops, |s.groups|, session, if pending then deadline else 0.0),
       listed := s.listed + ToSet(numbers),
       workers := EnsureWorker(s.workers, key))
  }

  function NewActions(key: Key, ops: seq<Op>, group: nat, session: Session, readyAt: real): (r: seq<Action>)
    ensures |r| == |ops|
    ensures forall k :: 0 <= k < |ops| ==> r[k] == Action(key, ops[k], Queued, false, group, session, readyAt)
  {
    seq(|ops|, k requires 0 <= k < |ops| => Action(key, ops[k], Queued, false, group, session, readyAt))
  }

  predicate IsEdit(op: Op) {
    op.Delete? || op.Rename? || op.Move? || op.Clear?
  }

  // ---- Undo ----

  /** Whether `take` hands over the capability, and the group it concerns. */
  predicate CanTake(s: State, action: nat, session: Session)
    requires StoreFits(s)
  {
    && action in s.listed && action < |s.actions|
    && var found := Lookup(s.groups, s.latest, s.actions[action].key);
       && found.Some?
       && var group := s.groups[found.value];
          && action in group.actions && group.Available(s.now, s.closed) && group.owner == session
          && (group.pending ==> forall n :: n in group.actions ==> n < |s.actions| && s.actions[n].status == Queued)
  }

  /** A refused `take` still drops a group that expired, changed owner or left its deletion window. */
  function AfterRefusal(s: State, action: nat): State
    requires StoreFits(s)
  {
    if action in s.listed && action < |s.actions| then
      var found := Lookup(s.groups, s.latest, s.actions[action].key);
      if found.Some? && action in s.groups[found.value].actions
         && (s.groups[found.value].Expired(s.now, s.closed) || s.groups[found.value].Available(s.now, s.closed))
      then s.(groups := InvalidateAll(s.groups, {found.value}))
      else s
    else s
  }

  function Took(s: State, action: nat, session: Session): State
    requires StoreFits(s) && CanTake(s, action, session)
  {
    var key := s.actions[action].key;
    var g := Lookup(s.groups, s.latest, key).value;
    var group := s.groups[g];
    s.(groups := InvalidateAll(s.groups, {g}),
       undoing := s.undoing + {key},
       actions := if group.pending then SettleAll(s.actions, group.actions, Canceled) else s.actions,
       runs := s.runs + [UndoRun(key, g, group.receipt, if group.receipt.Some? then Remote else Recorded)])
  }

  /** What `api.undo` comes to for the call: its receipt and indices against a later cloud. An index past the recipes
      raises, like every refusal. */
  ghost function InverseOutcome(s: State, run: UndoRun, cloud: UndoCloud): UndoOutcome
    requires run.group < |s.groups| && run.receipt.Some?
  {
    var group := s.groups[run.group];
    if exists i :: i in group.indices && i >= |run.receipt.value.steps| then UndoRefused(NotAvailable)
    else UndoResult(group.owner, run.key, run.receipt.value, group.indices, cloud)
  }

  /** `api.undo` returned. */
  predicate Returned(outcome: UndoOutcome) {
    outcome.UndoUnneeded? || (outcome.UndoPatched? && outcome.confirmed)
  }

  ghost predicate InverseDone(s: State, run: nat, cloud: UndoCloud) {
    && run < |s.runs| && s.runs[run].group < |s.groups| && s.runs[run].receipt.Some?
    && Returned(InverseOutcome(s, s.runs[run], cloud))
  }

  // ---- Finishing a write ----

  predicate HasPending(s: State, key: Key) {
    exists n | 0 <= n < |s.actions| :: Pending(s, key, n)
  }

  /** `complete`: grant a receipt only to the latest submission, and only if it was wholly in this write. */
  function Completed(s: State, key: Key, batch: seq<nat>, receipt: Option<UndoReceipt>): State
    requires StoreFits(s)
    requires receipt.Some? ==> |receipt.value.steps| == |batch|
  {
    var found := Lookup(s.groups, s.latest, key);
    if found.None? || !s.groups[found.value].active || HasPending(s, key) then s
    else
      var group := s.groups[found.value].(pending := false);
      s.(groups := s.groups[found.value := Granted(s, group, batch, receipt)])
  }

  function Granted(s: State, group: Group, batch: seq<nat>, receipt: Option<UndoReceipt>): Group
    requires receipt.Some? ==> |receipt.value.steps| == |batch|
  {
    if receipt.None?
       || exists n :: n in group.actions && !(n in batch && n < |s.actions| && s.actions[n].status == Done)
    then group.Invalidated()
    else
      var indices := seq(|group.actions|, i requires 0 <= i < |group.actions| =>
        assert group.actions[i] in group.actions; IndexOf(batch, group.actions[i]));
      if exists i | 0 <= i < |indices| :: receipt.value.steps[indices[i]].None? then group.Invalidated()
      else group.(receipt := receipt, indices := indices, deadline := s.now + UNDO_TTL)
  }

  /** The finished actions below `bound`, oldest first. */
  function FinishedBelow(s: State, bound: nat): (r: seq<nat>)
    ensures forall n: nat :: n in r <==> n < bound && n < |s.actions| && n in s.listed && !s.actions[n].status.Waiting()
  {
    if bound == 0 then []
    else
      var r := FinishedBelow(s, bound - 1);
      var n := bound - 1;
      if n < |s.actions| && n in s.listed && !s.actions[n].status.Waiting() then r + [n] else r
  }

  /** The oldest of the finished actions, as many as exceed the history limit. */
  function Surplus(count: nat, finished: seq<nat>): (r: seq<nat>)
    ensures forall n :: n in r ==> n in finished
  {
    var surplus := if count > MAX_HISTORY then count - MAX_HISTORY else 0;
    if surplus <= |finished| then finished[..surplus] else finished
  }

  /** `_prune`: forget the oldest finished actions beyond the history limit. */
  function Pruned(s: State): State {
    s.(listed := s.listed - ToSet(Surplus(|s.listed|, FinishedBelow(s, |s.actions|))))
  }

  predicate ValidNumbers(s: State, batch: seq<nat>) {
    forall n :: n in batch ==> n < |s.actions| && s.actions[n].group < |s.groups|
  }

  function OpsOf(s: State, batch: seq<nat>): (r: seq<Op>)
    requires ValidNumbers(s, batch)
    ensures |r| == |batch| && forall i :: 0 <= i < |batch| ==> batch[i] in batch && r[i] == s.actions[batch[i]].op
  {
    seq(|batch|, i requires 0 <= i < |batch| => assert batch[i] in batch; s.actions[batch[i]].op)
  }

  /** The whole write failed or is unconfirmed: every action of it fails, and its submission loses undo. */
  function WriteFailed(s: State, key: Key, batch: seq<nat>, blank: bool): State
    requires ValidNumbers(s, batch)
  {
    Pruned(s.(
      actions := SettleAll(s.actions, batch, Outcome(!blank)),
      groups := InvalidateAll(s.groups, set n | n in batch :: s.actions[n].group),
      workers := s.workers[key := Awake]))
  }

  /** Each action of a returned write is finished by its own result. */
  function Finished(s: State, key: Key, batch: seq<nat>, results: seq<OpResult>, write: Option<Write>): State
    requires |results| == |batch|
  {
    s.(actions := FinishAll(s.actions, batch, results),
       workers := s.workers[key := Awake],
       lastWrite := if write.Some? then s.lastWrite[key := LastWrite(batch, write.value)] else s.lastWrite)
  }

  function ReceiptOf(write: Option<Write>): Option<UndoReceipt> {
    if write.Some? then Some(write.value.receipt) else None
  }

  /** The write returned: finish each action by its result, then settle the undo capability. */
  function WriteReturned(s: State, key: Key, batch: seq<nat>, results: seq<OpResult>, write: Option<Write>): State
    requires StoreFits(s) && |results| == |batch|
    requires write.Some? ==> |write.value.receipt.steps| == |batch|
  {
    Pruned(Completed(Finished(s, key, batch, results, write), key, batch, ReceiptOf(write)))
  }

  ghost function Applied(s: State, key: Key, batch: seq<nat>, call: ApplyCall): State
    requires StoreFits(s) && ValidNumbers(s, batch)
  {
    if call.Raised? then WriteFailed(s, key, batch, call.text == "")
    else if exists n :: n in batch && s.actions[n].session != call.session then WriteFailed(s, key, batch, false)
    else
      var ops := OpsOf(s, batch);
      var outcome := ApplyOutcome(call.session, key, call.retitle, ops, call.cloud);
      match outcome
      case Refused => WriteFailed(s, key, batch, false)
      case Unconfirmed(_, _) => WriteFailed(s, key, batch, false)
      case Unchanged(results) => WriteReturned(s, key, batch, results, None)
      case Written(results, receipt) =>
        var write := Write(call.session, key, call.retitle, ops, call.cloud, results, receipt);
        WriteReports(write);
        WriteReturned(s, key, batch, results, Some(write))
  }

  // ---- One step ----

  predicate Sane(s: State) {
    && StoreFits(s)
    && (forall n :: 0 <= n < |s.actions| ==> s.actions[n].group < |s.groups|)
    && (forall k :: k in s.workers && s.workers[k].Writing? ==> ValidNumbers(s, s.workers[k].batch))
  }

  /** The state after one event; an event that cannot happen, or is refused without effect, leaves it alone. */
  ghost function Next(s: State, e: Event): State
    requires Sane(s)
  {
    match e
    case Tick(elapsed) => if elapsed >= 0.0 then s.(now := s.now + elapsed) else s
    case Submit(key, ops, session) => Submitted(s, key, ops, session)
    case SubmitUpload(key, title, position, session) => UploadSubmitted(s, key, title, position, session)
    case Cancel(n) => Cancelled(s, n)
    case UndoBegin(n, session) => if CanTake(s, n, session) then Took(s, n, session) else AfterRefusal(s, n)
    case UndoRecord(run, cloud) => UndoRecorded(s, run, InverseDone(s, run, cloud))
    case UndoFinish(run) => UndoFinished(s, run)
    case TransferBegin(n) => TransferBegun(s, n)
    case TransferEnd(n, prepared) => TransferEnded(s, n, prepared)
    case Wake(key) => Woken(s, key)
    case WorkerLook(key, lag) => Looked(s, key, lag)
    case WorkerCollect(key) => Collected(s, key)
    case WorkerDone(key, call) =>
      if key in s.workers && s.workers[key].Writing? then Applied(s, key, s.workers[key].batch, call) else s
    case Reset => WasReset(s)
    case Close(session) => s.(closed := s.closed + {session})
    case Probe(n) => Probed(s, n)
  }

  function Submitted(s: State, key: Key, ops: seq<Op>, session: Session): State
    requires StoreFits(s)
  {
    if ops == [] || key == "" || session in s.closed || exists k :: 0 <= k < |ops| && !IsEdit(ops[k]) then s
    else
      var t := Registered(s, key, ops, session);
      t.(workers := NotifyAll(t.workers))
  }

  /** `submit_upload` does not notify: a queued upload cannot make a batch ready. */
  function UploadSubmitted(s: State, key: Key, title: string, position: Position, session: Session): State
    requires StoreFits(s)
  {
    if key == "" || session in s.closed then s
    else
      var t := Registered(s, key, [Attach("", title, 0.0, position)], session);
      t.(unsent := s.unsent + {|s.actions|})
  }

  function Cancelled(s: State, n: nat): State
    requires forall k :: 0 <= k < |s.actions| ==> s.actions[k].group < |s.groups|
  {
    if n in s.listed && n < |s.actions| && s.actions[n].status == Queued then
      s.(groups := InvalidateAll(s.groups, {s.actions[n].group}),
         actions := SettleAll(s.actions, [n], Canceled),
         workers := NotifyAll(s.workers))
    else s
  }

  function UndoRecorded(s: State, run: nat, confirmed: bool): State {
    if run < |s.runs| && s.runs[run].phase == Remote && s.runs[run].group < |s.groups| then
      s.(runs := s.runs[run := s.runs[run].(phase := Recorded)],
         actions := if confirmed then SetAll(s.actions, s.groups[s.runs[run].group].actions, Undone) else s.actions)
    else s
  }

  function UndoFinished(s: State, run: nat): State {
    if run < |s.runs| && s.runs[run].phase == Recorded then
      s.(runs := s.runs[run := s.runs[run].(phase := Over)],
         undoing := s.undoing - {s.runs[run].key},
         workers := NotifyAll(s.workers))
    else s
  }

  function TransferBegun(s: State, n: nat): State {
    if n in s.unsent && n < |s.actions| then
      if s.actions[n].status == Queued then
        s.(unsent := s.unsent - {n}, transit := s.transit + {n}, actions := SetAll(s.actions, [n], Transferring))
      else s.(unsent := s.unsent - {n})
    else s
  }

  function TransferEnded(s: State, n: nat, prepared: Prepared): State {
    if n in s.transit && n < |s.actions| then
      var actions :=
        if s.actions[n].status == Canceled || !s.actions[n].op.Attach? then s.actions
        else if prepared.Sent? then
          s.actions[n := s.actions[n].(status := Ready,
            op := s.actions[n].op.(fileId := prepared.fileId, seconds := prepared.seconds))]
        else SettleAll(s.actions, [n], Outcome(prepared.text != ""));
      s.(transit := s.transit - {n}, actions := actions, workers := NotifyAll(s.workers))
    else s
  }

  /** A wait that has a timeout ends once it is due. */
  function Woken(s: State, key: Key): State {
    if key in s.workers && s.workers[key].Asleep? && s.workers[key].until.Some? && s.workers[key].until.value <= s.now
    then s.(workers := s.workers[key := Awake])
    else s
  }

  /** One round of the waiting loop. The clock is read once to look for a batch and again, `lag` later, to collect the
      deadlines of what is deferred. */
  function Looked(s: State, key: Key, lag: real): State {
    if key !in s.workers || !s.workers[key].Awake? || lag < 0.0 then s
    else if ReadyBatch(s, key) != [] then s.(workers := s.workers[key := Collecting])
    else FellAsleep(s.(now := s.now + lag), key)
  }

  function FellAsleep(s: State, key: Key): State {
    s.(workers := s.workers[key := Asleep(DeadlineBelow(s, key, |s.actions|))])
  }

  function Collected(s: State, key: Key): State {
    if key in s.workers && s.workers[key].Collecting? then
      var batch := ReadyBatch(s, key);
      s.(actions := SetAll(s.actions, batch, Applying),
         entered := s.entered + batch,
         workers := s.workers[key := if batch == [] then Awake else Writing(batch)])
    else s
  }

  predicate Unstarted(s: State, n: nat) {
    n < |s.actions| && n in s.listed && s.actions[n].status.Waiting() && s.actions[n].status != Applying
  }

  /** Everything listed, waiting and not yet in a write. */
  function ResetBelow(s: State, bound: nat): (r: seq<nat>)
    ensures forall n: nat :: n in r <==> n < bound && Unstarted(s, n)
  {
    if bound == 0 then []
    else
      var r := ResetBelow(s, bound - 1);
      if Unstarted(s, bound - 1) then r + [bound - 1] else r
  }

  function WasReset(s: State): State {
    s.(groups := InvalidateAll(s.groups, ToSet(s.latest)), latest := [],
       actions := SettleAll(s.actions, ResetBelow(s, |s.actions|), Canceled),
       workers := NotifyAll(s.workers))
  }

  /** Reading an action's public record checks, and may end, its undo capability. */
  function Probed(s: State, n: nat): State
    requires forall k :: 0 <= k < |s.actions| ==> s.actions[k].group < |s.groups|
  {
    if n < |s.actions| && s.groups[s.actions[n].group].Expired(s.now, s.closed)
    then s.(groups := InvalidateAll(s.groups, {s.actions[n].group}))
    else s
  }
}
