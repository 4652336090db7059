/** What each use case answers and leaves behind when no port fails, said of the rows and the
    clock alone: exactly when it succeeds, what it then stores, and with which lifetimes. */
module Outcomes {
  import opened Basics
  import opened Credentials
  import opened Store
  import opened Repositories
  import opened AuthSpec
  import Totp

  // ----- time within a call -----

  /** The world after n port calls that write nothing. */
  function Later(w: World, n: nat): World {
    if n == 0 then w else Turn(Later(w, n - 1))
  }

  /** The time after n port calls of the call. */
  function ClockAt(w: World, n: nat): nat {
    Later(w, n).clock
  }

  /** The world has come n port calls further than w, whatever was written meanwhile. */
  predicate Reached(v: World, w: World, n: nat) {
    v.clock == ClockAt(w, n) && v.plan == Later(w, n).plan
  }

  lemma {:induction false} LaterReads(w: World, n: nat)
    ensures Later(w, n).tables == w.tables && Later(w, n).next == w.next && Reached(Later(w, n), w, n)
    ensures NoFaults(w.plan) ==> NoFaults(Later(w, n).plan)
  {
    if n > 0 {
      LaterReads(w, n - 1);
      if NoFaults(w.plan) {
        TurnNoFaults(Later(w, n - 1));
      }
    }
  }

  /** One more port call, while none fails: a read, a fresh token or a write. */
  lemma OneCall(v: World, w: World, n: nat)
    requires NoFaults(w.plan) && Reached(v, w, n)
    ensures NoFaults(v.plan)
    ensures Ask(v) == Out(Turn(v), Ok(())) && Reached(Turn(v), w, n + 1)
    ensures Turn(v).tables == v.tables && Turn(v).next == v.next && Turn(v).clock == ClockAt(w, n + 1)
    ensures Draw(v) == Out(Turn(v).(next := v.next + 1), Ok(v.next)) && Reached(Draw(v).w, w, n + 1)
  {
    LaterReads(w, n);
    TurnNoFaults(v);
  }

  lemma OneWrite(v: World, w: World, n: nat, e: Effect)
    requires NoFaults(w.plan) && Reached(v, w, n)
    ensures Write(v, e) == Out(Note(Turn(v), e), Ok(())) && Reached(Write(v, e).w, w, n + 1)
    ensures Write(v, e).w.tables == Apply(v.tables, ClockAt(w, n + 1), e) && Write(v, e).w.next == v.next
    ensures Note(v, e).tables == Apply(v.tables, ClockAt(w, n), e)
    ensures Reached(Note(v, e), w, n) && Note(v, e).next == v.next
  {
    hide Apply;
    OneCall(v, w, n);
  }

  // ----- issuing a session -----

  /** The user's old tokens are revoked, the new one is stored, and no other token changes. */
  predicate Succeeded(before: map<Id, RefreshToken>, after: map<Id, RefreshToken>, user: Id, token: Id,
                      expiresAt: int)
  {
    && after.Keys == before.Keys + {token}
    && after[token] == RefreshToken(user, expiresAt, false)
    && forall t | t in before && t != token ::
         && after[t].user == before[t].user && after[t].expiresAt == before[t].expiresAt
         && after[t].revoked == (before[t].revoked || before[t].user == user)
  }

  /** Nothing but tokens and markers differs. */
  predicate SameButSessions(s: Tables, r: Tables) {
    && s.users == r.users && s.credentials == r.credentials && s.challenges == r.challenges
    && s.flows == r.flows && s.jobs == r.jobs
  }

  lemma IssueWritesRows(s: Tables, user: Id, token: Id, until: int, expiresAt: int, previous: Id,
                        a: nat, b: nat, c: nat)
    ensures var s1 := Apply(s, a, RevokeAll(user));
            var s2 := Apply(s1, b, Activate(user, token, until));
            var s3 := Apply(s2, c, AddToken(token, RefreshToken(user, expiresAt, false)));
            var s4 := Apply(s3, c, Schedule(user, previous));
            && s2.users == s.users
            && SameButSessions(s3, s) && s3.markers == s.markers[user := Marker(token, until)]
            && Succeeded(s.tokens, s3.tokens, user, token, expiresAt)
            && SameButSessions(s4, s) && s4.markers == s3.markers && s4.tokens == s3.tokens
  {
  }

  /** Issuing stores a token never drawn before: it expires one refresh lifetime after it is drawn,
      its user's marker one after it is activated, and no other row changes. */
  lemma IssueExactly(cfg: Config, v: World, w: World, n: nat, user: Id)
    requires NoFaults(w.plan) && Reached(v, w, n) && user in v.tables.users
    ensures var o := IssueSession(cfg, v, user);
            var token, expiresAt := v.next, ClockAt(w, n + 2) + cfg.refreshTTL;
            && o.r == Ok(Session(user, token, expiresAt)) && Reached(o.w, w, n + 5)
            && SameButSessions(o.w.tables, v.tables)
            && o.w.tables.markers == v.tables.markers[user := Marker(token, ClockAt(w, n + 3) + cfg.refreshTTL)]
            && Succeeded(v.tables.tokens, o.w.tables.tokens, user, token, expiresAt)
  {
    hide Turn, Write, Draw, Note, Apply, NoFaults, Reached, ClockAt, LiveMarker, SameButSessions, Succeeded;
    OneWrite(v, w, n, RevokeAll(user));
    var o1 := RevokeAllForUser(v, user);
    OneCall(o1.w, w, n + 1);
    var o2 := Draw(o1.w);
    var token, until, expiresAt := v.next, ClockAt(w, n + 3) + cfg.refreshTTL, ClockAt(w, n + 2) + cfg.refreshTTL;
    OneCall(o2.w, w, n + 2);
    ReachedClock(o2.w, w, n + 2);
    OneWrite(o2.w, w, n + 2, Activate(user, token, until));
    var o3 := ActivateAndReturnPrevious(o2.w, user, token, cfg.refreshTTL);
    var previous := if o3.r.value.Some? then o3.r.value.value else 0;
    IssueWritesRows(v.tables, user, token, until, expiresAt, previous,
                    ClockAt(w, n + 1), ClockAt(w, n + 3), ClockAt(w, n + 4));
    OneWrite(o3.w, w, n + 3, AddToken(token, RefreshToken(user, expiresAt, false)));
    var o4 := CreateToken(o3.w, token, RefreshToken(user, expiresAt, false));
    OneWrite(o4.w, w, n + 4, Schedule(user, previous));
    OneCall(o4.w, w, n + 4);
    OneCall(Note(o4.w, Schedule(user, previous)), w, n + 4);
  }

  lemma ReachedClock(v: World, w: World, n: nat)
    requires Reached(v, w, n)
    ensures v.clock == ClockAt(w, n)
  {
  }

  // ----- the gate -----

  /** The counter as which a code checked at that time is accepted, if it is: the demo account's
      fixed code counts as 0; any other code must match the step in which it is checked, or the
      next, and be newer than the last one used. */
  function AcceptedAs(cfg: Config, row: CredentialRow, email: string, code: string, checked: nat): Option<nat> {
    if email == DEMO_EMAIL && code == DEMO_CODE then Some(0)
    else
      var step := Totp.Step(checked);
      var counter := if cfg.hotp(code, step, row.secret).Match? then Some(step)
                     else if cfg.hotp(code, step + 1, row.secret).Match? then Some(step + 1)
                     else None;
      if counter.Some? && (row.lastUsedCounter.None? || row.lastUsedCounter.value < counter.value) then counter
      else None
  }

  /** The counter as which the gate accepts it: the account must also not be locked when the gate
      looks. */
  function OpenedWith(cfg: Config, row: CredentialRow, email: string, code: string, looked: nat,
                      checked: nat): Option<nat>
  {
    if row.lockedUntil.Some? && looked < row.lockedUntil.value then None
    else AcceptedAs(cfg, row, email, code, checked)
  }

  /** How many port calls the gate makes. */
  function GateCalls(email: string, code: string): nat {
    if email == DEMO_EMAIL && code == DEMO_CODE then 1 else 2
  }

  predicate SameButCredential(s: Tables, r: Tables, user: Id) {
    && s.users == r.users && s.tokens == r.tokens && s.challenges == r.challenges
    && s.flows == r.flows && s.markers == r.markers && s.jobs == r.jobs
    && s.credentials.Keys == r.credentials.Keys
    && forall u | u in r.credentials && u != user :: s.credentials[u] == r.credentials[u]
  }

  lemma CredentialWrite(s: Tables, at: nat, user: Id, row: CredentialRow, why: CredentialWrite)
    requires user in s.credentials
    ensures var s1 := Apply(s, at, WriteCredential(user, row, why));
            SameButCredential(s1, s, user) && s1.credentials[user] == row
  {
  }

  /** The gate opens exactly for those codes. It then clears the failures and the lock and
      remembers the counter. A locked account is answered at once. Any other code is written down,
      and the answer says whether the account is now locked. */
  lemma GateExactly(cfg: Config, v: World, w: World, n: nat, email: string, user: Id, row: CredentialRow, code: string,
                    purpose: Purpose)
    requires NoFaults(w.plan) && Reached(v, w, n)
    requires user in v.tables.credentials && v.tables.credentials[user] == row
    ensures var o := VerifyOTP(cfg, v, email, user, row, code, purpose);
            var counter := OpenedWith(cfg, row, email, code, ClockAt(w, n), ClockAt(w, n + 1));
            && SameButCredential(o.w.tables, v.tables, user) && o.w.next == v.next
            && var after := o.w.tables.credentials[user];
            && after.secret == row.secret && after.enabled == row.enabled && after.setup == row.setup
            && (if counter.Some? then
                  && o.r == Ok(after) && Reached(o.w, w, n + GateCalls(email, code))
                  && after.failedAttempts == 0 && after.lockedUntil == None && after.lastUsedCounter == counter
                else if row.lockedUntil.Some? && ClockAt(w, n) < row.lockedUntil.value then
                  o == Out(v, Err(OtpLocked))
                else
                  && Reached(o.w, w, n + 2) && after.lastUsedCounter == row.lastUsedCounter
                  && (if row.failedAttempts + 1 >= cfg.otpMaxAttempts
                      then after.failedAttempts == 0 && after.lockedUntil == Some(ClockAt(w, n + 1) + cfg.otpLockout)
                      else after.failedAttempts == row.failedAttempts + 1 && after.lockedUntil == row.lockedUntil)
                  && o.r == Err(if after.lockedUntil.Some? && ClockAt(w, n + 2) < after.lockedUntil.value
                                then OtpLocked else OtpInvalid))
  {
    hide Turn, Write, Apply, NoFaults, SameButCredential, ClockAt, ValidateOTP, OpenedWith, AcceptedAs, Accepts,
         Reached;
    ReachedClock(v, w, n);
    UntouchedCredential(v.tables, user);
    LockedNeverOpens(cfg, row, email, code, ClockAt(w, n), ClockAt(w, n + 1));
    if !row.IsLocked(v.clock) {
      Judged(cfg, v, w, n, email, row, code);
      var o1 := ValidateOTP(cfg, v, email, row, code);
      var m := n + GateCalls(email, code) - 1;
      var verdict := o1.r.value;
      var row1 := if Accepts(row, verdict) then row.AfterSuccess(verdict.counter)
                  else row.AfterFailure(cfg.otpMaxAttempts, cfg.otpLockout, o1.w.clock);
      var why := if Accepts(row, verdict) then Passed(verdict.counter, o1.w.clock, verdict.demo, purpose)
                 else Failed(o1.w.clock);
      ReachedClock(o1.w, w, m);
      OneWrite(o1.w, w, m, WriteCredential(user, row1, why));
      CredentialWrite(o1.w.tables, ClockAt(w, m + 1), user, row1, why);
      ReachedClock(Write(o1.w, WriteCredential(user, row1, why)).w, w, m + 1);
    }
  }

  lemma LockedNeverOpens(cfg: Config, row: CredentialRow, email: string, code: string, looked: nat, checked: nat)
    ensures row.IsLocked(looked) ==> OpenedWith(cfg, row, email, code, looked, checked).None?
    ensures row.IsLocked(looked) <==> row.lockedUntil.Some? && looked < row.lockedUntil.value
    ensures !row.IsLocked(looked) ==>
              OpenedWith(cfg, row, email, code, looked, checked) == AcceptedAs(cfg, row, email, code, checked)
    ensures row.AfterSuccess(0).lockedUntil == None && row.AfterSuccess(0).failedAttempts == 0
  {
  }

  /** The verdict on a code. */
  lemma Judged(cfg: Config, v: World, w: World, n: nat, email: string, row: CredentialRow, code: string)
    requires NoFaults(w.plan) && Reached(v, w, n)
    ensures var o := ValidateOTP(cfg, v, email, row, code);
            var counter := AcceptedAs(cfg, row, email, code, ClockAt(w, n + 1));
            && o.r.Ok? && o.w.tables == v.tables && o.w.next == v.next
            && Reached(o.w, w, n + GateCalls(email, code) - 1)
            && (Accepts(row, o.r.value) <==> counter.Some?)
            && (counter.Some? ==> o.r.value.counter == counter.value)
            && (counter.None? ==> GateCalls(email, code) == 2)
            && (counter.Some? ==> (o.r.value.demo <==> email == DEMO_EMAIL && code == DEMO_CODE))
  {
    hide Turn, NoFaults, Totp.Matched, Totp.Step, ClockAt, Reached;
    OneCall(v, w, n);
    ReachedClock(v, w, n);
    Totp.MatchedExactly(cfg.hotp, code, row.secret, ClockAt(w, n + 1));
  }

  lemma UntouchedCredential(s: Tables, user: Id)
    ensures SameButCredential(s, s, user)
  {
  }

  // ----- refresh and logout -----

  /** Every token of the user is revoked, and no other token changes. */
  predicate Revoked(before: map<Id, RefreshToken>, after: map<Id, RefreshToken>, user: Id) {
    && after.Keys == before.Keys
    && forall t | t in before ::
         && after[t].user == before[t].user && after[t].expiresAt == before[t].expiresAt
         && after[t].revoked == (before[t].revoked || before[t].user == user)
  }

  lemma RevokeAllRows(s: Tables, at: nat, user: Id)
    ensures var s1 := Apply(s, at, RevokeAll(user));
            SameButSessions(s1, s) && s1.markers == s.markers && Revoked(s.tokens, s1.tokens, user)
  {
  }

  /** A refresh succeeds exactly for a stored, unrevoked token that has not expired when it is
      looked up, of an account that is active. It replaces the token by one with a new lifetime.
      A revoked token, or one of an account that is being deleted, revokes every token of its
      account; an unknown or expired one changes nothing. */
  lemma RefreshExactly(cfg: Config, w: World, raw: Id)
    requires NoFaults(w.plan)
    ensures var o := Refresh(cfg, w, raw);
            var s := w.tables;
            if raw in s.tokens && !s.tokens[raw].revoked && ClockAt(w, 1) <= s.tokens[raw].expiresAt
               && s.tokens[raw].user in s.users && !s.users[s.tokens[raw].user].deletionPending then
              var user, token, expiresAt := s.tokens[raw].user, w.next, ClockAt(w, 5) + cfg.refreshTTL;
              && o.r == Ok(Session(user, token, expiresAt))
              && SameButSessions(o.w.tables, s)
              && o.w.tables.markers == s.markers[user := Marker(token, ClockAt(w, 6) + cfg.refreshTTL)]
              && Succeeded(s.tokens, o.w.tables.tokens, user, token, expiresAt)
            else
              && o.r == Err(InvalidRefreshToken)
              && if raw in s.tokens && (s.tokens[raw].revoked
                   || (ClockAt(w, 1) <= s.tokens[raw].expiresAt && s.tokens[raw].user in s.users))
                 then
                   && SameButSessions(o.w.tables, s) && o.w.tables.markers == s.markers
                   && Revoked(s.tokens, o.w.tables.tokens, s.tokens[raw].user)
                 else o.w.tables == s
  {
    hide Turn, Write, Apply, NoFaults, Note, SameButSessions, Succeeded, Revoked, Rotate, ClockAt;
    LaterReads(w, 0);
    OneCall(w, w, 0);
    var w1 := Turn(w);
    ReachedClock(w1, w, 1);
    if raw in w.tables.tokens {
      var rt := w.tables.tokens[raw];
      OneWrite(w1, w, 1, RevokeAll(rt.user));
      OneCall(w1, w, 1);
      var w2 := Turn(w1);
      OneWrite(w2, w, 2, RevokeAll(rt.user));
      RevokeAllRows(w.tables, ClockAt(w, 2), rt.user);
      RevokeAllRows(w.tables, ClockAt(w, 3), rt.user);
      if !rt.revoked && rt.user in w.tables.users {
        RotateExactly(cfg, w2, w, rt.user, raw);
      }
    }
  }

  lemma RevokeOneRows(s: Tables, at: nat, raw: Id)
    requires raw in s.tokens
    ensures var s1 := Apply(s, at, RevokeOne(raw));
            && SameButSessions(s1, s) && s1.markers == s.markers
            && s1.tokens == s.tokens[raw := s.tokens[raw].(revoked := true)]
  {
  }

  lemma RotateExactly(cfg: Config, v: World, w: World, user: Id, raw: Id)
    requires NoFaults(w.plan) && Reached(v, w, 2) && user in v.tables.users
    requires raw in v.tables.tokens && !v.tables.tokens[raw].revoked && v.tables.tokens[raw].user == user
    ensures var o := Rotate(cfg, v, user, raw);
            var s, token, expiresAt := v.tables, v.next, ClockAt(w, 5) + cfg.refreshTTL;
            && o.r == Ok(Session(user, token, expiresAt))
            && SameButSessions(o.w.tables, s)
            && o.w.tables.markers == s.markers[user := Marker(token, ClockAt(w, 6) + cfg.refreshTTL)]
            && Succeeded(s.tokens, o.w.tables.tokens, user, token, expiresAt)
  {
    hide Turn, Write, Apply, NoFaults, Note, IssueSession, ClockAt, Reached;
    OneWrite(v, w, 2, RevokeOne(raw));
    RevokeOneRows(v.tables, ClockAt(w, 3), raw);
    var o1 := Revoke(v, raw);
    IssueExactly(cfg, o1.w, w, 3, user);
    var o2 := IssueSession(cfg, o1.w, user);
    NotedRows(o2.w, Deliver(v.next, user, ViaRefresh(raw)));
  }

  lemma NotedRows(w: World, e: Effect)
    requires e.Deliver? || e.Schedule? || e.Begin?
    ensures var s := Note(w, e).tables;
            && SameButSessions(s, w.tables) && s.tokens == w.tables.tokens && s.markers == w.tables.markers
            && s.top == w.tables.top
  {
  }

  lemma ClearIfRows(s: Tables, at: nat, user: Id, raw: Id)
    ensures var s1 := Apply(s, at, ClearMarkerIf(user, raw));
            && SameButSessions(s1, s) && s1.tokens == s.tokens
            && s1.markers == (if user in s.markers && s.markers[user].session == raw then s.markers - {user}
                              else s.markers)
            && s1.log == s.log + [Entry(at, ClearMarkerIf(user, raw))]
    ensures Apply(s, at, RevokeOne(raw)).log == s.log + [Entry(at, RevokeOne(raw))]
    ensures Apply(s, at, Schedule(user, raw)).log == s.log + [Entry(at, Schedule(user, raw))]
  {
  }

  /** A logout always succeeds. A stored, unrevoked token is revoked, its user's marker is cleared
      if it names that token, and the session's cleanup is scheduled; nothing else changes. Any
      other token changes nothing. */
  lemma LogoutExactly(w: World, raw: Id)
    requires NoFaults(w.plan)
    ensures var o := Logout(w, raw);
            var s, s' := w.tables, o.w.tables;
            && o.r == Ok(Nothing)
            && if raw in s.tokens && !s.tokens[raw].revoked then
                 var user := s.tokens[raw].user;
                 && SameButSessions(s', s)
                 && s'.tokens == s.tokens[raw := s.tokens[raw].(revoked := true)]
                 && s'.markers == (if user in s.markers && s.markers[user].session == raw then s.markers - {user}
                                   else s.markers)
                 && |s'.log| == |s.log| + 3 && s'.log[|s.log| + 2].what == Schedule(user, raw)
               else s' == s
  {
    hide Turn, Write, Apply, NoFaults, Note, ClockAt;
    LaterReads(w, 0);
    OneCall(w, w, 0);
    var w1 := Turn(w);
    if raw in w.tables.tokens && !w.tables.tokens[raw].revoked {
      var user := w.tables.tokens[raw].user;
      OneWrite(w1, w, 1, RevokeOne(raw));
      RevokeOneRows(w1.tables, ClockAt(w, 2), raw);
      ClearIfRows(w1.tables, ClockAt(w, 2), user, raw);
      var w2 := Revoke(w1, raw).w;
      OneWrite(w2, w, 2, ClearMarkerIf(user, raw));
      ClearIfRows(w2.tables, ClockAt(w, 3), user, raw);
      var w3 := DeactivateIfCurrent(w2, user, raw).w;
      OneWrite(w3, w, 3, Schedule(user, raw));
      ClearIfRows(w3.tables, ClockAt(w, 3), user, raw);
      NotedRows(w3, Schedule(user, raw));
    }
  }
}
