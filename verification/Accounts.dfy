/** Changing a password and asking for deletion, answered exactly. */
module Accounts {
  import opened Basics
  import opened Credentials
  import opened DeletionJobs
  import opened Store
  import opened Repositories
  import opened AuthSpec
  import opened Protocol
  import opened Conformance
  import opened Outcomes
  import opened Admissions
  import Totp

  lemma MarkerRowOnly(s: Tables, at: nat, user: Id)
    ensures var s1 := Apply(s, at, ClearMarker(user));
            SameButSessions(s1, s) && s1.markers == s.markers - {user} && s1.tokens == s.tokens
  {
  }

  lemma PasswordRowOnly(s: Tables, at: nat, user: Id, password: string, origin: PasswordChange)
    requires user in s.users
    ensures var s1 := Apply(s, at, SetPassword(user, password, origin));
            && s1.users == s.users[user := s.users[user].(password := password)]
            && s1.credentials == s.credentials && s1.tokens == s.tokens && s1.challenges == s.challenges
            && s1.flows == s.flows && s1.markers == s.markers && s1.jobs == s.jobs
  {
  }

  /** The tail of a password change and of a reset: the user's tokens are revoked, then the marker
      is cleared. */
  lemma SessionsEnd(v: World, w: World, n: nat, user: Id)
    requires NoFaults(w.plan) && Reached(v, w, n)
    ensures var o := RevokeAllForUser(v, user);
            && o.r.Ok?
            && var o' := EndSession(o.w, user);
            && o'.r == Ok(Nothing) && SameButSessions(o'.w.tables, v.tables)
            && Revoked(v.tables.tokens, o'.w.tables.tokens, user)
            && o'.w.tables.markers == v.tables.markers - {user}
  {
    hide Turn, Write, Apply, NoFaults, Note, Reached, LiveMarker, Revoked;
    OneWrite(v, w, n, RevokeAll(user));
    RevokeAllRows(v.tables, ClockAt(w, n + 1), user);
    var o := RevokeAllForUser(v, user);
    OneWrite(o.w, w, n + 1, ClearMarker(user));
    MarkerRowOnly(o.w.tables, ClockAt(w, n + 2), user);
    var o1 := DeactivateAndReturnPrevious(o.w, user);
    if o1.r.value.Some? {
      NotedRows(o1.w, Schedule(user, o1.r.value.value));
    }
  }

  // ----- changing a password -----

  /** Under every plan of port answers: a password change that is answered with success has stored
      the new password, and no other user row differs. */
  lemma ChangeStores(cfg: Config, w: World, user: Id, current: string, code: string, newPassword: string)
    requires ChangePassword(cfg, w, user, current, code, newPassword).r.Ok?
    ensures var s, s' := w.tables, ChangePassword(cfg, w, user, current, code, newPassword).w.tables;
            && user in s.users && s.users[user].password == current
            && s'.users == s.users[user := s.users[user].(password := newPassword)]
  {
    hide VerifyOTP, EndSession, RevokeAllForUser, UpdatePassword;
    var (w1, u) := GetUser(w, user).Extract();
    var (w2, row) := GetCredential(w1, user).NotFoundAs(OtpInvalid).Extract();
    GateKeepsUsers(cfg, w2, u.email, user, row, code, ForPasswordChange);
    var (w3, _) := VerifyOTP(cfg, w2, u.email, user, row, code, ForPasswordChange).Extract();
    var (w4, _) := Ask(w3).Extract();
    UpdateStores(w4, user, newPassword, ByOwner);
    var (w5, _) := UpdatePassword(w4, user, newPassword, ByOwner).Extract();
    TailKeepsUsers(w5, user);
  }

  lemma GateKeepsUsers(cfg: Config, w: World, email: string, user: Id, row: CredentialRow, code: string,
                       purpose: Purpose)
    ensures VerifyOTP(cfg, w, email, user, row, code, purpose).w.tables.users == w.tables.users
  {
    hide Totp.Matched, TokensAfter, CredentialsAfter, ChallengesAfter, FlowsAfter, MarkersAfter, JobsAfter, Bound;
  }

  lemma UpdateStores(w: World, user: Id, password: string, origin: PasswordChange)
    requires UpdatePassword(w, user, password, origin).r.Ok?
    ensures user in w.tables.users
    ensures var s := UpdatePassword(w, user, password, origin).w.tables;
            s.users == w.tables.users[user := w.tables.users[user].(password := password)]
  {
    hide TokensAfter, CredentialsAfter, ChallengesAfter, FlowsAfter, MarkersAfter, JobsAfter, Bound;
  }

  lemma TailKeepsUsers(w: World, user: Id)
    ensures var o := RevokeAllForUser(w, user);
            && o.w.tables.users == w.tables.users && EndSession(o.w, user).w.tables.users == w.tables.users
  {
    hide TokensAfter, CredentialsAfter, ChallengesAfter, FlowsAfter, MarkersAfter, JobsAfter, Bound, LiveMarker;
  }

  /** A password change succeeds exactly with the current password and a code the gate accepts. It
      stores the new password, revokes the user's tokens and clears the marker; otherwise no user,
      token or marker row changes. */
  lemma ChangeExactly(cfg: Config, w: World, user: Id, current: string, code: string, newPassword: string)
    requires NoFaults(w.plan)
    ensures var o := ChangePassword(cfg, w, user, current, code, newPassword);
            var s, s' := w.tables, o.w.tables;
            if && user in s.users && s.users[user].password == current && user in s.credentials
               && OpenedWith(cfg, s.credentials[user], s.users[user].email, code, ClockAt(w, 2), ClockAt(w, 3)).Some?
            then
              && o.r == Ok(Nothing)
              && s'.users == s.users[user := s.users[user].(password := newPassword)]
              && Revoked(s.tokens, s'.tokens, user) && s'.markers == s.markers - {user}
            else
              && o.r.Err? && s'.users == s.users && s'.tokens == s.tokens && s'.markers == s.markers
              && (if user !in s.users then o.r == Err(NotFound) && s' == s
                  else if s.users[user].password != current then o.r == Err(CurrentPasswordInvalid) && s' == s
                  else o.r.error in {OtpLocked, OtpInvalid})
  {
    hide Turn, VerifyOTP, NoFaults, Reached, ClockAt, OpenedWith, GateCalls, Apply, Write, RevokeAllForUser, EndSession,
         Revoked;
    LaterReads(w, 0);
    OneCall(w, w, 0);
    var w1 := Turn(w);
    OneCall(w1, w, 1);
    var w2 := Turn(w1);
    if user in w.tables.users && user in w.tables.credentials {
      var email, row := w.tables.users[user].email, w.tables.credentials[user];
      GateExactly(cfg, w2, w, 2, email, user, row, code, ForPasswordChange);
      var o3 := VerifyOTP(cfg, w2, email, user, row, code, ForPasswordChange);
      if o3.r.Ok? {
        var n := 2 + GateCalls(email, code);
        OneCall(o3.w, w, n);
        var w4 := Turn(o3.w);
        OneWrite(w4, w, n + 1, SetPassword(user, newPassword, ByOwner));
        PasswordRowOnly(w4.tables, ClockAt(w, n + 2), user, newPassword, ByOwner);
        SessionsEnd(UpdatePassword(w4, user, newPassword, ByOwner).w, w, n + 2, user);
      }
    }
  }

  /** After a password change that succeeded, whatever its ports answered, the next login of that
      active account passes with the new password and is refused with any other. */
  lemma ChangeThenLogin(cfg: Config, w: World, user: Id, current: string, code: string, newPassword: string,
                        login: Call, email: string, password: string)
    requires WorldOk(cfg, [], w) && IsActive(w.tables, user)
    requires ChangePassword(cfg, w, user, current, code, newPassword).r.Ok?
    requires login.request == DoLogin(email, password) && NoFaults(login.plan)
    requires cfg.normalizeEmail(email) == w.tables.users[user].email
    ensures var r := Exec(cfg, ChangePassword(cfg, w, user, current, code, newPassword).w, login).r;
            if password == newPassword then r.Ok? else r == Err(InvalidCredentials)
  {
    hide ChangePassword, Login, Legal, Replay, ClockAt, Apply;
    var o := ChangePassword(cfg, w, user, current, code, newPassword);
    ChangeStores(cfg, w, user, current, code, newPassword);
    ChangePasswordOk(cfg, [], w, user, current, code, newPassword);
    EnterOk(cfg, [], o.w, login);
    EnterUsers(o.w, login);
    LoginExactly(cfg, Enter(o.w, login), user, email, password);
  }

  lemma EnterUsers(w: World, call: Call)
    ensures Enter(w, call).tables.users == w.tables.users
  {
  }

  // ----- asking for deletion -----

  lemma DeletionRowsOnly(s: Tables, at: nat, user: Id)
    requires user in s.users
    ensures var s1 := Apply(s, at, AskDeletion(user));
            && s1.users == s.users[user := s.users[user].(deletionPending := true)]
            && Revoked(s.tokens, s1.tokens, user)
            && s1.jobs == (if user in s.jobs then s.jobs else s.jobs[user := NewJob(at)])
            && s1.credentials == s.credentials && s1.challenges == s.challenges && s1.flows == s.flows
            && s1.markers == s.markers
  {
  }

  lemma RevokedTwice(a: map<Id, RefreshToken>, b: map<Id, RefreshToken>, c: map<Id, RefreshToken>, user: Id)
    requires (a == b || Revoked(a, b, user)) && Revoked(b, c, user)
    ensures Revoked(a, c, user)
  {
  }

  /** A deletion request succeeds exactly with a code the gate accepts. The account is then pending
      and has a job, its tokens are revoked and its marker is cleared; otherwise no user, token,
      marker or job row changes. */
  lemma DeleteExactly(cfg: Config, w: World, user: Id, code: string)
    requires NoFaults(w.plan)
    ensures var o := DeleteAccount(cfg, w, user, code);
            var s, s' := w.tables, o.w.tables;
            if && user in s.users && user in s.credentials
               && OpenedWith(cfg, s.credentials[user], s.users[user].email, code, ClockAt(w, 2), ClockAt(w, 3)).Some?
            then
              && o.r == Ok(Nothing)
              && s'.users == s.users[user := s.users[user].(deletionPending := true)]
              && s'.jobs == (if user in s.jobs || s.users[user].deletionPending then s.jobs
                             else s.jobs[user := NewJob(ClockAt(w, 3 + GateCalls(s.users[user].email, code)))])
              && Revoked(s.tokens, s'.tokens, user) && s'.markers == s.markers - {user}
            else
              && o.r.Err? && s'.users == s.users && s'.tokens == s.tokens && s'.markers == s.markers
              && s'.jobs == s.jobs
              && (if user !in s.users then o.r == Err(NotFound) && s' == s else o.r.error in {OtpLocked, OtpInvalid})
  {
    hide Turn, VerifyOTP, NoFaults, Reached, ClockAt, OpenedWith, GateCalls, Apply, Write, Revoked, NewJob;
    LaterReads(w, 0);
    OneCall(w, w, 0);
    var w1 := Turn(w);
    OneCall(w1, w, 1);
    var w2 := Turn(w1);
    if user in w.tables.users && user in w.tables.credentials {
      var email, row := w.tables.users[user].email, w.tables.credentials[user];
      GateExactly(cfg, w2, w, 2, email, user, row, code, ForDeletion);
      var o3 := VerifyOTP(cfg, w2, email, user, row, code, ForDeletion);
      if o3.r.Ok? {
        DeletionGoesThrough(o3.w, w, 2 + GateCalls(email, code), user);
      }
    }
  }

  lemma DeletionGoesThrough(v: World, w: World, n: nat, user: Id)
    requires NoFaults(w.plan) && Reached(v, w, n) && user in v.tables.users
    ensures var o4 := RequestDeletion(v, user);
            && o4.r.Ok?
            && var o5 := RevokeAllForUser(o4.w, user);
            && o5.r.Ok?
            && var o6 := Deactivate(o5.w, user);
            var s, s' := v.tables, o6.w.tables;
            && o6.r.Ok?
            && s'.users == s.users[user := s.users[user].(deletionPending := true)]
            && s'.jobs == (if user in s.jobs || s.users[user].deletionPending then s.jobs
                           else s.jobs[user := NewJob(ClockAt(w, n + 1))])
            && Revoked(s.tokens, s'.tokens, user) && s'.markers == s.markers - {user}
  {
    hide Turn, NoFaults, Reached, ClockAt, Apply, Write, Revoked, NewJob;
    OneCall(v, w, n);
    OneWrite(v, w, n, AskDeletion(user));
    DeletionRowsOnly(v.tables, ClockAt(w, n + 1), user);
    var o4 := RequestDeletion(v, user);
    OneWrite(o4.w, w, n + 1, RevokeAll(user));
    RevokeAllRows(o4.w.tables, ClockAt(w, n + 2), user);
    var o5 := RevokeAllForUser(o4.w, user);
    RevokedTwice(v.tables.tokens, o4.w.tables.tokens, o5.w.tables.tokens, user);
    OneWrite(o5.w, w, n + 2, ClearMarker(user));
    MarkerRowOnly(o5.w.tables, ClockAt(w, n + 3), user);
  }
}
