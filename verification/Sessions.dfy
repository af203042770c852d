/** Browser sessions and the vault flag (app/auth.py, app/routes/setup.py, app/credentials.py): sign-in, lock and
    password change as interleaved step sequences. */
module Sessions {
  import opened Lists

  const SESSION_TTL := 43200.0
  const MAX_SESSIONS := 128

  type Token = nat

  /** One entry of `_sessions`. `stem` is history: the generation its password check was captured at. */
  datatype Session = Session(token: Token, expiry: real, stem: nat)

  // ---- The session table ----

  ghost predicate Distinct(entries: seq<Session>) {
    forall i, j :: 0 <= i < j < |entries| ==> entries[i].token != entries[j].token
  }

  lemma AppendDistinct(entries: seq<Session>, e: Session)
    ensures Distinct(entries) && (forall x :: x in entries ==> x.token != e.token) ==> Distinct(entries + [e])
  {
    assert forall i :: 0 <= i < |entries| ==> entries[i] in entries;
  }

  lemma LastDiffers(entries: seq<Session>)
    requires entries != [] && Distinct(entries)
    ensures Distinct(entries[..|entries| - 1])
    ensures forall x :: x in entries[..|entries| - 1] ==> x.token != entries[|entries| - 1].token
  {
  }

  /** The entries that have not expired, oldest first. */
  function Fresh(entries: seq<Session>, now: real): (r: seq<Session>)
    ensures |r| <= |entries|
    ensures forall e :: e in r <==> e in entries && e.expiry > now
    ensures Distinct(entries) ==> Distinct(r)
  {
    if entries == [] then []
    else
      var n := |entries| - 1;
      var r := Fresh(entries[..n], now);
      AppendDistinct(r, entries[n]);
      assert Distinct(entries) ==> Distinct(r) && forall x :: x in r ==> x.token != entries[n].token by {
        if Distinct(entries) { LastDiffers(entries); }
      }
      if entries[n].expiry > now then r + [entries[n]] else r
  }

  /** The newest entries, leaving room for one more. */
  function Newest(entries: seq<Session>): (r: seq<Session>)
    ensures |r| < MAX_SESSIONS && (forall e :: e in r ==> e in entries)
    ensures Distinct(entries) ==> Distinct(r)
  {
    if |entries| < MAX_SESSIONS then entries else entries[|entries| - (MAX_SESSIONS - 1)..]
  }

  function Issued(entries: seq<Session>, token: Token, now: real, stem: nat): (r: seq<Session>)
    ensures forall e :: e in r ==> e in entries || e == Session(token, now + SESSION_TTL, stem)
    ensures Distinct(entries) && (forall x :: x in entries ==> x.token != token) ==> Distinct(r)
  {
    var e := Session(token, now + SESSION_TTL, stem);
    AppendDistinct(Newest(Fresh(entries, now)), e);
    Newest(Fresh(entries, now)) + [e]
  }

  /** The entries without one token. */
  function Without(entries: seq<Session>, token: Token): (r: seq<Session>)
    ensures forall e :: e in r <==> e in entries && e.token != token
    ensures Distinct(entries) ==> Distinct(r)
  {
    if entries == [] then []
    else
      var n := |entries| - 1;
      var r := Without(entries[..n], token);
      AppendDistinct(r, entries[n]);
      assert Distinct(entries) ==> Distinct(r) && forall x :: x in r ==> x.token != entries[n].token by {
        if Distinct(entries) { LastDiffers(entries); }
      }
      if entries[n].token != token then r + [entries[n]] else r
  }

  /** What a revocation leaves: the kept token's entry, if there is one. */
  function Kept(entries: seq<Session>, keep: Option<Token>): (r: seq<Session>)
    ensures forall e :: e in r <==> e in entries && keep == Some(e.token)
    ensures Distinct(entries) ==> Distinct(r)
  {
    if entries == [] then []
    else
      var n := |entries| - 1;
      var r := Kept(entries[..n], keep);
      AppendDistinct(r, entries[n]);
      assert Distinct(entries) ==> Distinct(r) && forall x :: x in r ==> x.token != entries[n].token by {
        if Distinct(entries) { LastDiffers(entries); }
      }
      if keep == Some(entries[n].token) then r + [entries[n]] else r
  }

  predicate Live(entries: seq<Session>, token: Token, now: real) {
    exists e :: e in entries && e.token == token && e.expiry > now
  }

  predicate Known(entries: seq<Session>, token: Token) {
    exists e :: e in entries && e.token == token
  }

  lemma OnlyEntry(entries: seq<Session>, e: Session)
    requires Distinct(entries) && e in entries
    ensures forall x :: x in entries && x.token == e.token ==> x == e
  {
  }

  lemma {:induction false} FreshNothing(entries: seq<Session>, now: real)
    requires entries == []
    ensures Fresh(entries, now) == []
  {
  }

  lemma {:induction false} FreshOneMore(entries: seq<Session>, now: real, i: nat)
    requires i < |entries|
    ensures Fresh(entries[..i + 1], now)
      == Fresh(entries[..i], now) + (if entries[i].expiry > now then [entries[i]] else [])
  {
    assert entries[..i + 1][..i] == entries[..i];
  }

  lemma {:induction false} WithoutNothing(entries: seq<Session>, token: Token)
    requires entries == []
    ensures Without(entries, token) == []
  {
  }

  lemma {:induction false} WithoutOneMore(entries: seq<Session>, token: Token, i: nat)
    requires i < |entries|
    ensures Without(entries[..i + 1], token)
            == Without(entries[..i], token) + (if entries[i].token != token then [entries[i]] else [])
  {
    assert entries[..i + 1][..i] == entries[..i];
  }

  /** The module globals `_sessions` and `_session_generation`. */
  class SessionTable {
    var entries: seq<Session>
    var generation: nat

    constructor ()
      ensures entries == [] && generation == 0
    {
      entries, generation := [], 0;
    }

    /** Deletes the expired entries, one by one. */
    method DropExpired(now: real)
      modifies this`entries
      ensures entries == Fresh(old(entries), now)
    {
      hide Fresh;
      var kept, i := [], 0;
      FreshNothing(entries[..0], now);
      while i < |entries|
        invariant 0 <= i <= |entries| && kept == Fresh(entries[..i], now) && entries == old(entries)
      {
        FreshOneMore(entries, now, i);
        if entries[i].expiry > now {
          kept := kept + [entries[i]];
        }
        i := i + 1;
      }
      assert entries[..i] == entries;
      entries := kept;
    }

    /** The oldest sessions make room. */
    method Evict()
      modifies this`entries
      ensures entries == Newest(old(entries))
    {
      ghost var all, k := entries, 0;
      while |entries| >= MAX_SESSIONS
        invariant k <= |all| && entries == all[k..] && (k > 0 ==> |entries| >= MAX_SESSIONS - 1)
      {
        entries := entries[1..];
        k := k + 1;
      }
    }

    /** `create_session` */
    method Create(expected: Option<nat>, token: Token, now: real) returns (issued: bool)
      modifies this`entries
      ensures issued <==> expected.None? || expected.value == generation
      ensures entries == if issued then Issued(old(entries), token, now, generation) else old(entries)
    {
      if expected.Some? && expected.value != generation {
        return false;
      }
      DropExpired(now);
      Evict();
      entries := entries + [Session(token, now + SESSION_TTL, generation)];
      return true;
    }

    /** `_sessions.get` */
    method Get(token: Token) returns (r: Option<Session>)
      ensures r.Some? ==> r.value in entries && r.value.token == token
      ensures r.None? ==> !Known(entries, token)
    {
      var i := 0;
      while i < |entries|
        invariant 0 <= i <= |entries| && forall e :: e in entries[..i] ==> e.token != token
      {
        assert entries[..i + 1] == entries[..i] + [entries[i]];
        if entries[i].token == token {
          return Some(entries[i]);
        }
        i := i + 1;
      }
      assert entries[..i] == entries;
      return None;
    }

    /** `del _sessions[token]` */
    method Delete(token: Token)
      modifies this`entries
      ensures entries == Without(old(entries), token)
    {
      hide Without;
      var others, i := [], 0;
      WithoutNothing(entries[..0], token);
      while i < |entries|
        invariant 0 <= i <= |entries| && others == Without(entries[..i], token) && entries == old(entries)
      {
        WithoutOneMore(entries, token, i);
        if entries[i].token != token {
          others := others + [entries[i]];
        }
        i := i + 1;
      }
      assert entries[..i] == entries;
      entries := others;
    }

    /** `session_valid`: an expired entry is deleted on the way. */
    method Check(token: Token, now: real) returns (valid: bool)
      requires Distinct(entries)
      modifies this`entries
      ensures valid <==> Live(old(entries), token, now)
      ensures entries == if Known(old(entries), token) && !valid then Without(old(entries), token) else old(entries)
    {
      hide Without;
      var found := Get(token);
      if found.None? {
        return false;
      }
      OnlyEntry(entries, found.value);
      if found.value.expiry <= now {
        Delete(token);
        return false;
      }
      return true;
    }

    /** `revoke_all_sessions` */
    method RevokeAll(keep: Option<Token>)
      modifies this
      ensures entries == Kept(old(entries), keep) && generation == old(generation) + 1
    {
      generation := generation + 1;
      var kept, i := [], 0;
      while i < |entries|
        invariant 0 <= i <= |entries| && kept == Kept(entries[..i], keep) && generation == old(generation) + 1
        invariant entries == old(entries)
      {
        assert entries[..i + 1][..i] == entries[..i];
        if keep == Some(entries[i].token) {
          kept := kept + [entries[i]];
        }
        i := i + 1;
      }
      assert entries[..i] == entries;
      entries := kept;
    }
  }

  // ---- The routes, step by step ----

  /** Where a request is. Those marked "held" are inside `account_transition`. */
  datatype Flow =
    | SigningIn(generation: nat)                    // held: generation captured, password not checked
    | SignedIn(generation: nat)                     // vault unlocked, session not issued
    | Locking                                       // held: about to lock the vault
    | Locked                                        // held: vault locked, sessions not revoked
    | Changing(cookie: Option<Token>)               // held: password or credentials about to change
    | Changed(cookie: Option<Token>)                // held: changed, initiator's session not looked up
    | Keeping(keep: Option<Token>)                  // held: about to revoke
    | Finished
  {
    predicate Held() {
      !SignedIn? && !Finished?
    }
  }

  /** `revocations[g]` is what the revocation from generation `g` to `g + 1` kept; `issued` counts tokens. */
  datatype State = State(now: real, entries: seq<Session>, generation: nat, unlocked: bool, flows: seq<Flow>,
                         holder: Option<nat>, issued: nat, revocations: seq<Option<Token>>)

  const INIT := State(0.0, [], 0, false, [], None, 0, [])

  datatype Event =
    | Tick(elapsed: real)
    | BeginSignIn
    | Verify(flow: nat, ok: bool)
    | Issue(flow: nat)
    | BeginLock
    | LockVault(flow: nat)
    | RevokeAll(flow: nat)
    | BeginChange(cookie: Option<Token>)
    | Change(flow: nat, ok: bool)
    | LookUp(flow: nat)
    | Check(token: Token)

  predicate At(s: State, flow: nat) {
    flow < |s.flows|
  }

  function Begin(s: State, flow: Flow): State {
    s.(flows := s.flows + [flow], holder := Some(|s.flows|))
  }

  function To(s: State, flow: nat, next: Flow): State
    requires flow < |s.flows|
  {
    s.(flows := s.flows[flow := next], holder := if next.Held() then Some(flow) else None)
  }

  function Checked(s: State, token: Token): State {
    if Known(s.entries, token) && !Live(s.entries, token, s.now) then s.(entries := Without(s.entries, token)) else s
  }

  function Revoked(s: State, flow: nat, keep: Option<Token>): State
    requires flow < |s.flows|
  {
    To(s, flow, Finished).(entries := Kept(s.entries, keep), generation := s.generation + 1,
      revocations := s.revocations + [keep])
  }

  function Step(s: State, e: Event): State {
    match e
    case Tick(elapsed) => if elapsed >= 0.0 then s.(now := s.now + elapsed) else s
    case BeginSignIn => if s.holder.None? then Begin(s, SigningIn(s.generation)) else s
    case Verify(f, ok) =>
      if At(s, f) && s.flows[f].SigningIn? then
        if ok then To(s, f, SignedIn(s.flows[f].generation)).(unlocked := true) else To(s, f, Finished)
      else s
    case Issue(f) =>
      if At(s, f) && s.flows[f].SignedIn? then
        var t := s.(flows := s.flows[f := Finished], issued := s.issued + 1);
        if s.flows[f].generation == s.generation
        then t.(entries := Issued(s.entries, s.issued, s.now, s.flows[f].generation))
        else t
      else s
    case BeginLock => if s.holder.None? then Begin(s, Locking) else s
    case LockVault(f) => if At(s, f) && s.flows[f].Locking? then To(s, f, Locked).(unlocked := false) else s
    case RevokeAll(f) =>
      if At(s, f) && s.flows[f].Locked? then Revoked(s, f, None)
      else if At(s, f) && s.flows[f].Keeping? then Revoked(s, f, s.flows[f].keep)
      else s
    case BeginChange(cookie) => if s.holder.None? then Begin(s, Changing(cookie)) else s
    case Change(f, ok) =>
      if At(s, f) && s.flows[f].Changing? then To(s, f, if ok then Changed(s.flows[f].cookie) else Finished) else s
    case LookUp(f) =>
      if At(s, f) && s.flows[f].Changed? then
        var cookie := s.flows[f].cookie;
        if cookie.Some? then
          To(Checked(s, cookie.value), f, Keeping(if Live(s.entries, cookie.value, s.now) then cookie else None))
        else To(s, f, Keeping(None))
      else s
    case Check(token) => Checked(s, token)
  }

  ghost function Run(events: seq<Event>): State
    decreases |events|
  {
    if events == [] then INIT else Step(Run(events[..|events| - 1]), events[|events| - 1])
  }

  // ---- What every step keeps ----

  /** A lock between clearing the vault and revoking the sessions. */
  ghost predicate LockInProgress(s: State) {
    s.holder.Some? && s.holder.value < |s.flows| && s.flows[s.holder.value].Locked?
  }

  ghost predicate OneHolder(s: State) {
    && (s.holder.Some? ==> s.holder.value < |s.flows|)
    && forall f :: 0 <= f < |s.flows| ==> (s.flows[f].Held() <==> s.holder == Some(f))
  }

  /** Every revocation since a session's password check has kept that session. */
  ghost predicate Survived(s: State, e: Session) {
    && e.stem <= s.generation == |s.revocations|
    && forall g :: e.stem <= g < s.generation ==> s.revocations[g] == Some(e.token)
  }

  ghost predicate Entries(s: State) {
    && |s.revocations| == s.generation
    && (forall e :: e in s.entries ==> Survived(s, e) && e.token < s.issued)
    && Distinct(s.entries)
    && (forall f :: 0 <= f < |s.flows| && (s.flows[f].SigningIn? || s.flows[f].SignedIn?) ==>
          s.flows[f].generation <= s.generation)
    && (forall f :: 0 <= f < |s.flows| && s.flows[f].SigningIn? ==> s.flows[f].generation == s.generation)
  }

  /** Outside a lock in progress, sessions, and sign-ins that may still get one, imply an unlocked vault. */
  ghost predicate Unlocked(s: State) {
    && (s.entries != [] ==> s.unlocked)
    && (forall f :: 0 <= f < |s.flows| && s.flows[f].SignedIn? && s.flows[f].generation == s.generation ==> s.unlocked)
  }

  ghost predicate Inv(s: State) {
    OneHolder(s) && Entries(s) && (LockInProgress(s) || Unlocked(s))
  }

  lemma IssueKeeps(s: State, f: nat)
    requires Inv(s) && At(s, f) && s.flows[f].SignedIn?
    ensures Inv(Step(s, Issue(f)))
  {
    hide Issued, Survived;
    assert forall e :: e in s.entries ==> e.token != s.issued;
    var t := Step(s, Issue(f));
    forall e | e in t.entries ensures Survived(t, e) && e.token < t.issued {
      if e in s.entries { SurvivesStill(s, t, e); } else { NewSurvives(t, e); }
    }
  }

  lemma SurvivesStill(s: State, t: State, e: Session)
    requires Survived(s, e) && t.generation == s.generation && t.revocations == s.revocations
    ensures Survived(t, e)
  {
  }

  lemma NewSurvives(t: State, e: Session)
    requires e.stem == t.generation == |t.revocations|
    ensures Survived(t, e)
  {
  }

  /** Fewer sessions, nothing else. */
  lemma FewerKeeps(s: State, entries: seq<Session>)
    requires Inv(s) && Distinct(entries) && forall e :: e in entries ==> e in s.entries
    ensures Inv(s.(entries := entries))
  {
    hide Survived;
    var t := s.(entries := entries);
    forall e | e in t.entries ensures Survived(t, e) { SurvivesStill(s, t, e); }
    if entries != [] { assert entries[0] in entries; }
  }

  lemma CheckKeeps(s: State, token: Token)
    requires Inv(s)
    ensures Inv(Checked(s, token)) && Checked(s, token).flows == s.flows && Checked(s, token).holder == s.holder
  {
    hide Inv, Without;
    assert Distinct(s.entries) by { EntriesDistinct(s); }
    if Checked(s, token) != s { FewerKeeps(s, Without(s.entries, token)); }
  }

  lemma EntriesDistinct(s: State)
    requires Inv(s)
    ensures Distinct(s.entries)
  {
  }

  lemma RevokeKeeps(s: State, f: nat, keep: Option<Token>)
    requires Inv(s) && At(s, f) && (s.flows[f].Keeping? || (s.flows[f].Locked? && keep.None?))
    ensures Inv(Revoked(s, f, keep))
  {
    hide Kept;
    var t := Revoked(s, f, keep);
    forall e | e in t.entries ensures Survived(t, e) {
      assert e in s.entries && Survived(s, e) && keep == Some(e.token);
    }
    if t.entries != [] { assert t.entries[0] in t.entries && t.entries[0] in s.entries; }
  }

  /** The holder moves on inside its block, or leaves it. */
  lemma MoveKeeps(s: State, f: nat, next: Flow, unlocked: bool)
    requires Inv(s) && At(s, f) && s.flows[f].Held() && !s.flows[f].Locked? && !next.SigningIn?
    requires next.SignedIn? ==> unlocked && next.generation == s.generation
    requires s.unlocked && !unlocked ==> next.Locked?
    ensures Inv(To(s, f, next).(unlocked := unlocked))
  {
    hide Survived, Distinct;
    var t := To(s, f, next).(unlocked := unlocked);
    forall e | e in t.entries ensures Survived(t, e) { SurvivesStill(s, t, e); }
  }

  lemma BeginKeeps(s: State, flow: Flow)
    requires Inv(s) && s.holder.None? && flow.Held() && !flow.Locked?
    requires flow.SigningIn? ==> flow.generation == s.generation
    ensures Inv(Begin(s, flow))
  {
    hide Survived, Distinct;
    var t := Begin(s, flow);
    forall e | e in t.entries ensures Survived(t, e) { SurvivesStill(s, t, e); }
  }

  lemma TimeKeeps(s: State, now: real)
    requires Inv(s)
    ensures Inv(s.(now := now))
  {
    hide Survived, Distinct;
    var t := s.(now := now);
    forall e | e in t.entries ensures Survived(t, e) { SurvivesStill(s, t, e); }
  }

  lemma SigningInIsCurrent(s: State, f: nat)
    requires Inv(s) && At(s, f) && s.flows[f].SigningIn?
    ensures s.flows[f].generation == s.generation
  {
  }

  lemma StepKeeps(s: State, e: Event)
    requires Inv(s)
    ensures Inv(Step(s, e))
  {
    hide Inv, To, Begin, Revoked, Checked, Issued;
    match e {
      case Tick(elapsed) => TimeKeeps(s, s.now + elapsed);
      case BeginSignIn => if s.holder.None? { BeginKeeps(s, SigningIn(s.generation)); }
      case BeginLock => if s.holder.None? { BeginKeeps(s, Locking); }
      case BeginChange(cookie) => if s.holder.None? { BeginKeeps(s, Changing(cookie)); }
      case Verify(f, ok) =>
        if At(s, f) && s.flows[f].SigningIn? {
          SigningInIsCurrent(s, f);
          if ok { MoveKeeps(s, f, SignedIn(s.generation), true); } else { MovePlainly(s, f, Finished); }
        }
      case Issue(f) => if At(s, f) && s.flows[f].SignedIn? { IssueKeeps(s, f); }
      case LockVault(f) => if At(s, f) && s.flows[f].Locking? { MoveKeeps(s, f, Locked, false); }
      case RevokeAll(f) =>
        if At(s, f) && s.flows[f].Locked? { RevokeKeeps(s, f, None); }
        else if At(s, f) && s.flows[f].Keeping? { RevokeKeeps(s, f, s.flows[f].keep); }
      case Change(f, ok) =>
        if At(s, f) && s.flows[f].Changing? { MovePlainly(s, f, if ok then Changed(s.flows[f].cookie) else Finished); }
      case LookUp(f) => if At(s, f) && s.flows[f].Changed? { LookUpKeeps(s, f); }
      case Check(token) => CheckKeeps(s, token);
    }
  }

  lemma MovePlainly(s: State, f: nat, next: Flow)
    requires Inv(s) && At(s, f) && s.flows[f].Held() && !s.flows[f].Locked? && !next.SigningIn? && !next.SignedIn?
    ensures Inv(To(s, f, next))
  {
    hide Inv;
    MoveKeeps(s, f, next, s.unlocked);
    assert To(s, f, next).(unlocked := s.unlocked) == To(s, f, next);
  }

  lemma LookUpKeeps(s: State, f: nat)
    requires Inv(s) && At(s, f) && s.flows[f].Changed?
    ensures Inv(Step(s, LookUp(f)))
  {
    hide Inv, To, Checked;
    var cookie := s.flows[f].cookie;
    if cookie.Some? {
      CheckKeeps(s, cookie.value);
      MovePlainly(Checked(s, cookie.value), f, Keeping(if Live(s.entries, cookie.value, s.now) then cookie else None));
    } else {
      MovePlainly(s, f, Keeping(None));
    }
  }

  lemma {:induction false} RunKeeps(events: seq<Event>)
    ensures Inv(Run(events))
    decreases |events|
  {
    if events != [] {
      RunKeeps(events[..|events| - 1]);
      StepKeeps(Run(events[..|events| - 1]), events[|events| - 1]);
    }
  }

  /** Over every interleaving: while a session is live, the vault is unlocked exactly when no lock is in progress. */
  lemma {:induction false} LiveSessionMeansUnlocked(events: seq<Event>, token: Token)
    requires Live(Run(events).entries, token, Run(events).now)
    ensures Run(events).unlocked <==> !LockInProgress(Run(events))
  {
    hide Step, Run;
    RunKeeps(events);
    if LockInProgress(Run(events)) {
      StillLocked(events, Run(events).holder.value);
    }
  }

  /** No session outlives a revocation that is newer than its password check, unless that revocation kept it. */
  lemma {:induction false} SessionsSurviveOnlyKept(events: seq<Event>, e: Session)
    requires e in Run(events).entries
    ensures Survived(Run(events), e)
  {
    hide Step;
    RunKeeps(events);
  }

  /** The end of a lock leaves no session, even one issued while the lock was in progress, and no pending sign-in that
      could still get one. */
  lemma {:induction false} LockSignsEveryoneOut(events: seq<Event>, f: nat)
    requires At(Run(events), f) && Run(events).flows[f].Locked?
    ensures var t := Step(Run(events), RevokeAll(f));
      && t.entries == [] && !t.unlocked
      && forall g :: 0 <= g < |t.flows| && t.flows[g].SignedIn? ==> t.flows[g].generation != t.generation
  {
    hide Run, Kept, Survived, Distinct;
    RunKeeps(events);
    StillLocked(events, f);
    NothingKept(Run(events).entries);
  }

  lemma {:induction false} NothingKept(entries: seq<Session>)
    ensures Kept(entries, None) == []
  {
    if Kept(entries, None) != [] {
      assert Kept(entries, None)[0] in Kept(entries, None);
      assert false;
    }
  }

  /** While a lock is in progress the vault stays locked. */
  lemma {:induction false} StillLocked(events: seq<Event>, f: nat)
    requires At(Run(events), f) && Run(events).flows[f].Locked?
    ensures !Run(events).unlocked
    decreases |events|
  {
    if events != [] {
      var n := |events| - 1;
      RunKeeps(events[..n]);
      if At(Run(events[..n]), f) && Run(events[..n]).flows[f].Locked? { StillLocked(events[..n], f); }
      LockedBefore(Run(events[..n]), events[n], f);
    }
  }

  lemma LockedBefore(s: State, e: Event, f: nat)
    requires Inv(s) && At(Step(s, e), f) && Step(s, e).flows[f].Locked?
    requires At(s, f) && s.flows[f].Locked? ==> !s.unlocked
    ensures !Step(s, e).unlocked
  {
    hide Entries, Unlocked, Issued, Kept, Without;
  }

  lemma {:induction false} RunOne(events: seq<Event>, e: Event)
    ensures Run(events + [e]) == Step(Run(events), e)
  {
    hide Step;
    assert (events + [e])[..|events|] == events;
  }

  lemma SignsIn()
    ensures var s := Step(Step(INIT, BeginSignIn), Verify(0, true));
      s == State(0.0, [], 0, true, [SignedIn(0)], None, 0, [])
  {
    assert Step(INIT, BeginSignIn) == State(0.0, [], 0, false, [SigningIn(0)], Some(0), 0, []);
  }

  lemma StartsLock(s: State)
    requires s == State(0.0, [], 0, true, [SignedIn(0)], None, 0, [])
    ensures Step(Step(s, BeginLock), LockVault(1)) == State(0.0, [], 0, false, [SignedIn(0), Locked], Some(1), 0, [])
  {
    assert Step(s, BeginLock) == State(0.0, [], 0, true, [SignedIn(0), Locking], Some(1), 0, []);
  }

  lemma IssuesInside(s: State)
    requires s == State(0.0, [], 0, false, [SignedIn(0), Locked], Some(1), 0, [])
    ensures var t := Step(s, Issue(0)); Live(t.entries, 0, t.now) && !t.unlocked && LockInProgress(t)
  {
    var t := Step(s, Issue(0));
    assert t.entries == [Session(0, SESSION_TTL, 0)] && t.entries[0] in t.entries;
  }

  /** The window is real: a sign-in that passed its password check is issued a session after the vault was locked and
      before the lock revokes. */
  lemma SessionInsideLock()
    ensures var s := Run([BeginSignIn, Verify(0, true), BeginLock, LockVault(1), Issue(0)]);
      Live(s.entries, 0, s.now) && !s.unlocked && LockInProgress(s)
  {
    hide Run, Step, Live, LockInProgress;
    var a, b, c, d, e := BeginSignIn, Verify(0, true), BeginLock, LockVault(1), Issue(0);
    RunNothing();
    assert [] + [a] == [a] && [a] + [b] == [a, b] && [a, b] + [c] == [a, b, c];
    assert [a, b, c] + [d] == [a, b, c, d] && [a, b, c, d] + [e] == [a, b, c, d, e];
    RunOne([], a);
    RunOne([a], b);
    RunOne([a, b], c);
    RunOne([a, b, c], d);
    RunOne([a, b, c, d], e);
    SignsIn();
    StartsLock(Run([a, b]));
    IssuesInside(Run([a, b, c, d]));
  }

  lemma RunNothing()
    ensures Run([]) == INIT
  {
  }

  // ---- How a session ends ----

  /** The oldest first: tokens are numbered as they are issued. */
  ghost predicate Sorted(entries: seq<Session>) {
    forall i, j :: 0 <= i < j < |entries| ==> entries[i].token < entries[j].token
  }

  lemma AppendSorted(entries: seq<Session>, e: Session)
    requires Sorted(entries) && forall x :: x in entries ==> x.token < e.token
    ensures Sorted(entries + [e])
  {
    assert forall i :: 0 <= i < |entries| ==> entries[i] in entries;
  }

  lemma LastIsNewest(entries: seq<Session>)
    requires Sorted(entries) && entries != []
    ensures Sorted(entries[..|entries| - 1])
    ensures forall x :: x in entries[..|entries| - 1] ==> x.token < entries[|entries| - 1].token
  {
  }

  lemma {:induction false} FreshSorted(entries: seq<Session>, now: real)
    requires Sorted(entries)
    ensures Sorted(Fresh(entries, now))
  {
    if entries != [] {
      var n := |entries| - 1;
      LastIsNewest(entries);
      FreshSorted(entries[..n], now);
      AppendSorted(Fresh(entries[..n], now), entries[n]);
    }
  }

  lemma {:induction false} WithoutSorted(entries: seq<Session>, token: Token)
    requires Sorted(entries)
    ensures Sorted(Without(entries, token))
  {
    if entries != [] {
      var n := |entries| - 1;
      LastIsNewest(entries);
      WithoutSorted(entries[..n], token);
      AppendSorted(Without(entries[..n], token), entries[n]);
    }
  }

  lemma {:induction false} KeptSorted(entries: seq<Session>, keep: Option<Token>)
    requires Sorted(entries)
    ensures Sorted(Kept(entries, keep))
  {
    if entries != [] {
      var n := |entries| - 1;
      LastIsNewest(entries);
      KeptSorted(entries[..n], keep);
      AppendSorted(Kept(entries[..n], keep), entries[n]);
    }
  }

  lemma IssuedSorted(entries: seq<Session>, token: Token, now: real, stem: nat)
    requires Sorted(entries) && forall x :: x in entries ==> x.token < token
    ensures Sorted(Issued(entries, token, now, stem))
  {
    hide Fresh;
    FreshSorted(entries, now);
    AppendSorted(Newest(Fresh(entries, now)), Session(token, now + SESSION_TTL, stem));
  }

  lemma StepSorted(s: State, e: Event)
    requires Inv(s) && Sorted(s.entries)
    ensures Sorted(Step(s, e).entries)
  {
    hide Issued, Kept, Without, Sorted, Survived, Distinct;
    match e {
      case Issue(f) =>
        if At(s, f) && s.flows[f].SignedIn? { IssuedSorted(s.entries, s.issued, s.now, s.flows[f].generation); }
      case RevokeAll(f) =>
        KeptSorted(s.entries, None);
        if At(s, f) && s.flows[f].Keeping? { KeptSorted(s.entries, s.flows[f].keep); }
      case LookUp(f) =>
        if At(s, f) && s.flows[f].Changed? && s.flows[f].cookie.Some? {
          WithoutSorted(s.entries, s.flows[f].cookie.value);
        }
      case Check(token) => WithoutSorted(s.entries, token);
      case _ =>
    }
  }

  lemma {:induction false} RunSorted(events: seq<Event>)
    ensures Sorted(Run(events).entries)
    decreases |events|
  {
    hide Step;
    if events != [] {
      RunSorted(events[..|events| - 1]);
      RunKeeps(events[..|events| - 1]);
      StepSorted(Run(events[..|events| - 1]), events[|events| - 1]);
    }
  }

  /** The live sessions issued after this one. */
  ghost function NewerLive(s: State, e: Session): set<Session> {
    set x | x in s.entries && x.expiry > s.now && x.token > e.token
  }

  /** The sign-in is issued its session. */
  ghost predicate Issues(s: State, ev: Event) {
    ev.Issue? && At(s, ev.flow) && s.flows[ev.flow].SignedIn? && s.flows[ev.flow].generation == s.generation
  }

  /** The sessions are revoked, but for the one that may stay. */
  ghost predicate Revokes(s: State, ev: Event, keep: Option<Token>) {
    && ev.RevokeAll? && At(s, ev.flow)
    && ((s.flows[ev.flow].Locked? && keep.None?) || s.flows[ev.flow] == Keeping(keep))
  }

  /** The session is looked up by its token. */
  ghost predicate LooksUp(s: State, ev: Event, token: Token) {
    || ev == Check(token)
    || (ev.LookUp? && At(s, ev.flow) && s.flows[ev.flow] == Changed(Some(token)))
  }

  /** Why a session ends: it expired, and someone signs in or looks it up; 127 newer ones are live when someone signs
      in; or it is revoked. */
  ghost predicate Ends(s: State, ev: Event, e: Session) {
    || (Issues(s, ev) && (e.expiry <= s.now || |NewerLive(s, e)| >= 127))
    || (LooksUp(s, ev, e.token) && e.expiry <= s.now)
    || (exists keep :: Revokes(s, ev, keep) && keep != Some(e.token))
  }

  lemma {:induction false} SortedCount(entries: seq<Session>)
    requires Sorted(entries)
    ensures |set x | x in entries| == |entries|
  {
    if entries == [] {
      assert (set x | x in entries) == {};
    } else {
      var n := |entries| - 1;
      LastIsNewest(entries);
      hide Sorted;
      SortedCount(entries[..n]);
      assert entries == entries[..n] + [entries[n]];
      assert (set x | x in entries) == (set x | x in entries[..n]) + {entries[n]};
    }
  }

  lemma TailCount(entries: seq<Session>, i: nat)
    requires Sorted(entries) && i < |entries|
    ensures |set x | x in entries && x.token > entries[i].token| == |entries| - 1 - i
  {
    var tail := entries[i + 1..];
    assert Sorted(tail);
    SortedCount(tail);
    forall x ensures x in tail <==> x in entries && x.token > entries[i].token { InTail(entries, i, x); }
    assert (set x | x in entries && x.token > entries[i].token) == set x | x in tail;
  }

  lemma InTail(entries: seq<Session>, i: nat, x: Session)
    requires Sorted(entries) && i < |entries|
    ensures x in entries[i + 1..] <==> x in entries && x.token > entries[i].token
  {
    if x in entries {
      var k :| 0 <= k < |entries| && entries[k] == x;
      if k > i { assert entries[i + 1..][k - i - 1] == x; }
    }
  }

  /** Making room drops a live session exactly when 127 newer ones are live. */
  lemma EvictedIff(s: State, e: Session)
    requires Sorted(s.entries) && e in s.entries
    ensures e in Newest(Fresh(s.entries, s.now)) <==> e.expiry > s.now && |NewerLive(s, e)| < 127
  {
    hide Fresh, Sorted;
    var live := Fresh(s.entries, s.now);
    if e.expiry > s.now {
      FreshSorted(s.entries, s.now);
      var i :| 0 <= i < |live| && live[i] == e;
      TailCount(live, i);
      assert NewerLive(s, e) == set x | x in live && x.token > live[i].token;
      InSuffix(live, i);
    }
  }

  lemma InSuffix(live: seq<Session>, i: nat)
    requires Sorted(live) && i < |live|
    ensures live[i] in Newest(live) <==> |live| - 1 - i < 127
  {
    if |live| >= MAX_SESSIONS {
      var k := |live| - (MAX_SESSIONS - 1);
      if i >= k { assert live[k..][i - k] == live[i]; }
    }
  }

  lemma OtherTokens(s: State, e: Session)
    requires Distinct(s.entries) && e in s.entries
    ensures Known(s.entries, e.token) && (Live(s.entries, e.token, s.now) <==> e.expiry > s.now)
  {
    OnlyEntry(s.entries, e);
  }

  lemma StepEnds(s: State, ev: Event, e: Session)
    requires Inv(s) && Sorted(s.entries) && e in s.entries
    ensures e !in Step(s, ev).entries <==> Ends(s, ev, e)
  {
    hide Kept, Without, Sorted, Survived, Distinct, Newest, Fresh, NewerLive, Live, Known;
    EntriesDistinct(s);
    OtherTokens(s, e);
    EvictedIff(s, e);
    if ev.RevokeAll? && At(s, ev.flow) {
      assert s.flows[ev.flow].Locked? ==> Revokes(s, ev, None);
      assert s.flows[ev.flow].Keeping? ==> Revokes(s, ev, s.flows[ev.flow].keep);
    }
    if ev.Issue? { NewTokenIsNew(s, e); }
  }

  lemma NewTokenIsNew(s: State, e: Session)
    requires Inv(s) && e in s.entries
    ensures e.token < s.issued
  {
  }

  /** Over every interleaving: a session ends exactly by expiring, by 127 newer ones at a sign-in, or by a revocation
      that does not keep it. */
  lemma {:induction false} SessionEndsIff(events: seq<Event>, ev: Event, e: Session)
    requires e in Run(events).entries
    ensures e !in Run(events + [ev]).entries <==> Ends(Run(events), ev, e)
  {
    hide Run, Step, Inv, Ends;
    RunOne(events, ev);
    RunKeeps(events);
    RunSorted(events);
    StepEnds(Run(events), ev, e);
  }

  /** And a session begins exactly when a sign-in whose generation is still current is issued one, for twelve hours. */
  lemma {:induction false} SessionBeginsIff(events: seq<Event>, ev: Event, e: Session)
    requires e !in Run(events).entries
    ensures var s := Run(events);
      e in Run(events + [ev]).entries
      <==> Issues(s, ev) && e == Session(s.issued, s.now + 12.0 * 3600.0, s.generation)
  {
    hide Run, Issued, Kept, Without, Live, Known;
    RunOne(events, ev);
    IssuedIsThere(Run(events).entries, Run(events).issued, Run(events).now, Run(events).generation);
  }

  lemma IssuedIsThere(entries: seq<Session>, token: Token, now: real, stem: nat)
    ensures Session(token, now + SESSION_TTL, stem) in Issued(entries, token, now, stem)
  {
  }

  // ---- The initiator of a password change ----

  /** The flow is about to revoke everyone but the holder of this session, which is there. */
  ghost predicate AboutToKeep(s: State, f: nat, e: Session) {
    At(s, f) && s.flows[f] == Keeping(Some(e.token)) && e in s.entries
  }

  lemma KeepsWaiting(s: State, f: nat, e: Session, ev: Event)
    requires Inv(s) && Sorted(s.entries) && AboutToKeep(s, f, e) && !ev.Issue? && ev != RevokeAll(f)
    requires e.expiry > Step(s, ev).now
    ensures AboutToKeep(Step(s, ev), f, e)
  {
    hide Kept, Without, Issued, Sorted, Survived, Distinct, Live, Known;
    assert s.holder == Some(f);
    EntriesDistinct(s);
    OtherTokens(s, e);
  }

  lemma {:induction false} KeepsWaitingAll(events: seq<Event>, f: nat, e: Session, more: seq<Event>)
    requires AboutToKeep(Run(events), f, e)
    requires forall i :: 0 <= i < |more| ==> !more[i].Issue? && more[i] != RevokeAll(f)
    requires e.expiry > Run(events + more).now
    ensures AboutToKeep(Run(events + more), f, e)
    decreases |more|
  {
    hide Run, Step, Inv, Sorted, AboutToKeep;
    if more == [] {
      assert events + more == events;
    } else {
      var n := |more| - 1;
      var head := events + more[..n];
      assert head + [more[n]] == events + more;
      RunOne(head, more[n]);
      TimePasses(Run(head), more[n]);
      KeepsWaitingAll(events, f, e, more[..n]);
      RunKeeps(head);
      RunSorted(head);
      KeepsWaiting(Run(head), f, e, more[n]);
    }
  }

  lemma TimePasses(s: State, ev: Event)
    ensures s.now <= Step(s, ev).now
  {
    hide Issued, Kept, Without, Live, Known;
  }

  lemma LooksUpOwn(s: State, f: nat, e: Session)
    requires Inv(s) && At(s, f) && s.flows[f] == Changed(Some(e.token)) && e in s.entries && e.expiry > s.now
    ensures AboutToKeep(Step(s, LookUp(f)), f, e)
  {
    hide Without, Survived, Distinct, Live, Known;
    EntriesDistinct(s);
    OtherTokens(s, e);
  }

  lemma RevokesOthers(s: State, f: nat, e: Session)
    requires Inv(s) && AboutToKeep(s, f, e)
    ensures forall x :: x in Step(s, RevokeAll(f)).entries <==> x == e
  {
    hide Survived;
    EntriesDistinct(s);
    OnlyEntry(s.entries, e);
  }

  /** Whoever changes the password, or the credentials, from a session that is live then stays signed in, and no one
      else does; whatever happens between the lookup and the revocation, unless the session expires or someone signs
      in. */
  lemma {:induction false} InitiatorStaysSignedIn(events: seq<Event>, f: nat, e: Session, more: seq<Event>)
    requires At(Run(events), f) && Run(events).flows[f] == Changed(Some(e.token))
    requires e in Run(events).entries && e.expiry > Run(events).now
    requires forall i :: 0 <= i < |more| ==> !more[i].Issue? && more[i] != RevokeAll(f)
    requires e.expiry > Run(events + [LookUp(f)] + more).now
    ensures forall x :: x in Run(events + [LookUp(f)] + more + [RevokeAll(f)]).entries <==> x == e
  {
    hide Run, Step, Inv, AboutToKeep;
    RunOne(events, LookUp(f));
    RunKeeps(events);
    LooksUpOwn(Run(events), f, e);
    KeepsWaitingAll(events + [LookUp(f)], f, e, more);
    RunOne(events + [LookUp(f)] + more, RevokeAll(f));
    RunKeeps(events + [LookUp(f)] + more);
    RevokesOthers(Run(events + [LookUp(f)] + more), f, e);
  }
}
