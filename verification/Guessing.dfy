/** How many wrong codes an account answers: the lockout bounds guessing across every
    caller of the shared OTP gate. */
module Guessing {
  import opened Basics
  import opened Credentials
  import opened Store
  import opened Repositories
  import opened AuthSpec
  import opened Protocol
  import opened Structure
  import opened Conformance
  import opened Lifecycle
  import Totp

  predicate IsFailure(e: Effect, user: Id) {
    e.WriteCredential? && e.user == user && e.why.Failed?
  }

  /** Failures of the user's codes recorded in entries i.. of the log. */
  function Failures(log: seq<Entry>, i: nat, user: Id): nat {
    if |log| <= i then 0
    else
      var n := |log| - 1;
      Failures(log[..n], i, user) + if IsFailure(log[n].what, user) then 1 else 0
  }

  /** Codes of the user accepted by the gate in entries i.. of the log. */
  function Successes(log: seq<Entry>, i: nat, user: Id): nat {
    if |log| <= i then 0
    else
      var n := |log| - 1;
      Successes(log[..n], i, user) + if IsPass(log[n].what, user) then 1 else 0
  }

  /** A failure that starts a lockout. */
  predicate IsLockout(e: Effect, user: Id) {
    IsFailure(e, user) && e.credential.failedAttempts == 0
  }

  /** Failures in entries i.. that started a lockout. */
  function Lockouts(log: seq<Entry>, i: nat, user: Id): nat {
    if |log| <= i then 0
    else
      var n := |log| - 1;
      Lockouts(log[..n], i, user) + if IsLockout(log[n].what, user) then 1 else 0
  }

  // ----- arithmetic -----

  lemma TimesNext(m: int, k: int)
    ensures m * (k + 1) == m * k + m
  {
  }

  lemma QuotientAtLeast(k: nat, l: nat, w: nat)
    requires l > 0 && k * l <= w
    ensures k <= w / l
  {
    if k > w / l {
      assert w < (w / l + 1) * l;
      TimesMonotone(w / l + 1, k, l);
    }
  }

  lemma TimesMonotone(a: nat, b: nat, l: nat)
    requires a <= b
    ensures a * l <= b * l
  {
  }

  // ----- the counter stays below the cap -----

  predicate BelowCap(cfg: Config, s: Tables) {
    forall u | u in s.credentials :: s.credentials[u].failedAttempts < cfg.otpMaxAttempts
  }

  lemma BelowCapStep(cfg: Config, s: Tables, at: nat, e: Effect)
    requires cfg.otpMaxAttempts >= 1 && BelowCap(cfg, s) && Enabled(cfg, s, at, e)
    ensures BelowCap(cfg, Apply(s, at, e))
  {
    hide UsersAfter, TokensAfter, ChallengesAfter, FlowsAfter, MarkersAfter, JobsAfter, Bound, InWindow;
  }

  lemma {:induction false} AlwaysBelowCap(cfg: Config, log: seq<Entry>)
    requires cfg.otpMaxAttempts >= 1 && Legal(cfg, log)
    ensures BelowCap(cfg, Replay(log))
  {
    hide Enabled, Apply;
    if log != [] {
      var n := |log| - 1;
      AlwaysBelowCap(cfg, log[..n]);
      BelowCapStep(cfg, Replay(log[..n]), log[n].at, log[n].what);
    }
  }

  // ----- the budget -----

  /** Time has passed k lockouts since t0, or is inside the k-th. */
  predicate OnSchedule(cfg: Config, s: Tables, user: Id, t0: nat, k: nat)
    requires user in s.credentials
  {
    || s.last >= t0 + k * cfg.otpLockout
    || (&& k >= 1
        && s.credentials[user].failedAttempts == 0
        && s.credentials[user].lockedUntil.Some?
        && s.credentials[user].lockedUntil.value >= t0 + k * cfg.otpLockout
        && s.last >= t0 + (k - 1) * cfg.otpLockout)
  }

  /** n failures, p successes and k lockouts since t0 are within budget. */
  predicate WithinBudget(cfg: Config, s: Tables, user: Id, t0: nat, n: nat, p: nat, k: nat) {
    && cfg.otpMaxAttempts >= 1 && cfg.otpLockout > 0 && t0 <= s.last
    && if user in s.credentials then
         && n <= cfg.otpMaxAttempts * k + s.credentials[user].failedAttempts + (cfg.otpMaxAttempts - 1) * p
         && s.credentials[user].failedAttempts < cfg.otpMaxAttempts
         && OnSchedule(cfg, s, user, t0, k)
       else
         n <= cfg.otpMaxAttempts * ((s.last - t0) / cfg.otpLockout + 1) + (cfg.otpMaxAttempts - 1) * p
  }

  lemma BudgetBound(cfg: Config, s: Tables, user: Id, t0: nat, n: nat, p: nat, k: nat)
    requires WithinBudget(cfg, s, user, t0, n, p, k)
    ensures n <= cfg.otpMaxAttempts * ((s.last - t0) / cfg.otpLockout + 1) + (cfg.otpMaxAttempts - 1) * p
  {
    if user in s.credentials {
      var q := (s.last - t0) / cfg.otpLockout;
      TimesNext(cfg.otpMaxAttempts, q);
      if s.last >= t0 + k * cfg.otpLockout {
        QuotientAtLeast(k, cfg.otpLockout, s.last - t0);
        TimesMonotone(k, q, cfg.otpMaxAttempts);
      } else {
        QuotientAtLeast(k - 1, cfg.otpLockout, s.last - t0);
        TimesMonotone(k, q + 1, cfg.otpMaxAttempts);
      }
    }
  }

  function One(b: bool): nat {
    if b then 1 else 0
  }

  lemma BudgetLater(cfg: Config, s: Tables, at: nat, user: Id, t0: nat, n: nat, p: nat)
    requires cfg.otpMaxAttempts >= 1 && cfg.otpLockout > 0 && t0 <= s.last <= at
    requires n <= cfg.otpMaxAttempts * ((s.last - t0) / cfg.otpLockout + 1) + (cfg.otpMaxAttempts - 1) * p
    ensures n <= cfg.otpMaxAttempts * ((at - t0) / cfg.otpLockout + 1) + (cfg.otpMaxAttempts - 1) * p
  {
    var q, q' := (s.last - t0) / cfg.otpLockout, (at - t0) / cfg.otpLockout;
    QuotientAtLeast(q, cfg.otpLockout, at - t0);
    TimesMonotone(q + 1, q' + 1, cfg.otpMaxAttempts);
  }

  /** A recorded failure happens once the k-th lockout is over. */
  lemma UnlockedMeansScheduled(cfg: Config, s: Tables, user: Id, t0: nat, k: nat, t: nat)
    requires user in s.credentials && OnSchedule(cfg, s, user, t0, k)
    requires s.last <= t && !s.credentials[user].IsLocked(t)
    ensures t >= t0 + k * cfg.otpLockout
  {
  }

  lemma FailureStep(cfg: Config, s: Tables, at: nat, e: Effect, user: Id, t0: nat, n: nat, p: nat, k: nat)
    requires user in s.credentials && WithinBudget(cfg, s, user, t0, n, p, k) && Enabled(cfg, s, at, e)
    requires IsFailure(e, user)
    ensures WithinBudget(cfg, Apply(s, at, e), user, t0, n + 1, p, k + One(IsLockout(e, user)))
  {
    hide UsersAfter, TokensAfter, ChallengesAfter, FlowsAfter, MarkersAfter, JobsAfter, Bound;
    UnlockedMeansScheduled(cfg, s, user, t0, k, e.why.failedAt);
    TimesNext(cfg.otpMaxAttempts, k);
    assert (k + 1) * cfg.otpLockout == k * cfg.otpLockout + cfg.otpLockout;
  }

  lemma SuccessStep(cfg: Config, s: Tables, at: nat, e: Effect, user: Id, t0: nat, n: nat, p: nat, k: nat)
    requires user in s.credentials && WithinBudget(cfg, s, user, t0, n, p, k) && Enabled(cfg, s, at, e)
    requires IsPass(e, user)
    ensures WithinBudget(cfg, Apply(s, at, e), user, t0, n, p + 1, k)
  {
    hide UsersAfter, TokensAfter, ChallengesAfter, FlowsAfter, MarkersAfter, JobsAfter, Bound, InWindow;
    UnlockedMeansScheduled(cfg, s, user, t0, k, e.why.checkedAt);
    TimesNext(cfg.otpMaxAttempts - 1, p);
  }

  lemma OtherStep(cfg: Config, s: Tables, at: nat, e: Effect, user: Id, secret: Id, t0: nat, n: nat, p: nat, k: nat)
    requires EnrolledWith(s, user, secret) && WithinBudget(cfg, s, user, t0, n, p, k) && Enabled(cfg, s, at, e)
    requires !IsFailure(e, user) && !IsPass(e, user)
    ensures WithinBudget(cfg, Apply(s, at, e), user, t0, n, p, k)
  {
    hide UsersAfter, TokensAfter, ChallengesAfter, FlowsAfter, MarkersAfter, JobsAfter, Bound, InWindow;
    BudgetBound(cfg, s, user, t0, n, p, k);
    BudgetLater(cfg, s, at, user, t0, n, p);
    if user in Apply(s, at, e).credentials {
      assert user in s.credentials;
      assert Apply(s, at, e).credentials[user].failedAttempts == s.credentials[user].failedAttempts;
      assert Apply(s, at, e).credentials[user].lockedUntil == s.credentials[user].lockedUntil;
    }
  }

  lemma NoFailureWithoutCredential(cfg: Config, s: Tables, at: nat, e: Effect, user: Id)
    requires user !in s.credentials && Enabled(cfg, s, at, e)
    ensures !IsFailure(e, user) && !IsPass(e, user)
  {
  }

  lemma {:induction false} AlwaysWithinBudget(cfg: Config, log: seq<Entry>, i: nat, user: Id)
    requires cfg.otpMaxAttempts >= 1 && cfg.otpLockout > 0
    requires Legal(cfg, log) && i <= |log|
    requires user in Replay(log[..i]).credentials && Replay(log[..i]).credentials[user].enabled
    ensures WithinBudget(cfg, Replay(log), user, Replay(log[..i]).last,
                         Failures(log, i, user), Successes(log, i, user), Lockouts(log, i, user))
    decreases |log|
  {
    hide Legal, Replay, Enabled, Apply, WithinBudget, EnrolledWith, EitherOr;
    if |log| == i {
      assert log[..i] == log;
      AlwaysBelowCap(cfg, log);
      BudgetStarts(cfg, Replay(log), user);
    } else {
      var m := |log| - 1;
      var s, e, t0 := Replay(log[..m]), log[m].what, Replay(log[..i]).last;
      var n, p, k := Failures(log[..m], i, user), Successes(log[..m], i, user), Lockouts(log[..m], i, user);
      assert log[..m][..i] == log[..i];
      assert log[..m + 1] == log;
      EntryEnabled(cfg, log, m);
      AlwaysWithinBudget(cfg, log[..m], i, user);
      EnrolmentIsStable(cfg, log, i, m, user);
      if user !in s.credentials {
        NoFailureWithoutCredential(cfg, s, log[m].at, e, user);
      }
      if IsFailure(e, user) {
        FailureStep(cfg, s, log[m].at, e, user, t0, n, p, k);
      } else if IsPass(e, user) {
        SuccessStep(cfg, s, log[m].at, e, user, t0, n, p, k);
      } else {
        OtherStep(cfg, s, log[m].at, e, user, Replay(log[..i]).credentials[user].secret, t0, n, p, k);
      }
    }
  }

  lemma BudgetStarts(cfg: Config, s: Tables, user: Id)
    requires cfg.otpMaxAttempts >= 1 && cfg.otpLockout > 0 && BelowCap(cfg, s) && user in s.credentials
    ensures WithinBudget(cfg, s, user, s.last, 0, 0, 0)
  {
  }

  /** For an enabled credential, attempt cap M >= 1 and lockout L > 0: over any stretch of a
      run that spans time W and accepts p codes at the gate, at most
      M * (W / L + 1) + (M - 1) * p wrong codes are answered. */
  lemma GuessingBound(cfg: Config, log: seq<Entry>, i: nat, user: Id)
    requires cfg.otpMaxAttempts >= 1 && cfg.otpLockout > 0
    requires Legal(cfg, log) && i <= |log|
    requires user in Replay(log[..i]).credentials && Replay(log[..i]).credentials[user].enabled
    ensures Replay(log[..i]).last <= Replay(log).last
    ensures var w := Replay(log).last - Replay(log[..i]).last;
            Failures(log, i, user)
              <= cfg.otpMaxAttempts * (w / cfg.otpLockout + 1) + (cfg.otpMaxAttempts - 1) * Successes(log, i, user)
  {
    hide *;
    var n, p, k := Failures(log, i, user), Successes(log, i, user), Lockouts(log, i, user);
    AlwaysWithinBudget(cfg, log, i, user);
    BudgetStartsBefore(cfg, Replay(log), user, Replay(log[..i]).last, n, p, k);
    BudgetBound(cfg, Replay(log), user, Replay(log[..i]).last, n, p, k);
  }

  lemma BudgetStartsBefore(cfg: Config, s: Tables, user: Id, t0: nat, n: nat, p: nat, k: nat)
    requires WithinBudget(cfg, s, user, t0, n, p, k)
    ensures t0 <= s.last && cfg.otpLockout > 0
  {
  }

  /** The user's credential, while it exists, is enabled and locked until the given time. */
  predicate LockedTill(s: Tables, user: Id, until: int) {
    && user < s.top
    && (user in s.credentials ==> s.credentials[user].enabled && s.credentials[user].lockedUntil == Some(until))
    && (user !in s.credentials ==> user !in s.users)
  }

  lemma LockedStep(cfg: Config, s: Tables, at: nat, e: Effect, user: Id, until: int)
    requires LockedTill(s, user, until) && Enabled(cfg, s, at, e) && at < until
    ensures !IsFailure(e, user) && !IsPass(e, user)
    ensures LockedTill(Apply(s, at, e), user, until)
  {
    hide TokensAfter, ChallengesAfter, FlowsAfter, MarkersAfter, JobsAfter, InWindow;
  }

  /** A lockout stands: from any moment of a run at which an enabled credential is locked until
      some time, no failure and no accepted code of the gate is recorded before that time, by
      any caller, and the lockout is neither extended nor lifted while the credential exists. */
  lemma {:induction false} LockoutStands(cfg: Config, log: seq<Entry>, i: nat, j: nat, user: Id, until: int)
    requires Legal(cfg, log) && i <= j <= |log|
    requires user in Replay(log[..i]).credentials && Replay(log[..i]).credentials[user].enabled
    requires Replay(log[..i]).credentials[user].lockedUntil == Some(until)
    requires forall m | i <= m < j :: log[m].at < until
    ensures forall m | i <= m < j :: !IsFailure(log[m].what, user) && !IsPass(log[m].what, user)
    ensures user in Replay(log[..j]).credentials ==> Replay(log[..j]).credentials[user].lockedUntil == Some(until)
    ensures LockedTill(Replay(log[..j]), user, until)
    decreases j
  {
    hide Legal, Replay, Enabled, Apply, IsFailure, IsPass;
    if i == j {
      PrefixLegal(cfg, log, i);
      Structural(cfg, log[..i]);
    } else {
      LockoutStands(cfg, log, i, j - 1, user, until);
      EntryEnabled(cfg, log, j - 1);
      LockedStep(cfg, Replay(log[..j - 1]), log[j - 1].at, log[j - 1].what, user, until);
    }
  }

  // ----- replies -----

  /** The request presents a code of the user to the gate. */
  predicate Presents(s: Tables, request: Request, user: Id) {
    match request
    case DoSetupVerify(token, _) => UserWithSetup(s.credentials, token, s.top) == Some(user)
    case DoLoginVerify(challenge, _) => challenge in s.challenges && s.challenges[challenge].user == user
    case DoChangePassword(who, _, _, _) => who == user
    case DoDelete(who, _) => who == user
    case _ => false
  }

  predicate IsOtpError(r: Reply<Result>) {
    r == Err(OtpInvalid) || r == Err(OtpLocked)
  }

  /** A gate call wrote nothing and found the account locked, or wrote exactly one failure. */
  predicate Answered(before: seq<Entry>, after: seq<Entry>, user: Id, r: Reply<Result>) {
    || (after == before && r == Err(OtpLocked))
    || (|after| == |before| + 1 && after[..|before|] == before && IsFailure(after[|before|].what, user))
  }

  /** Every wrong code the gate answers with an OTP error is recorded as a failure, unless the
      account was locked. */
  lemma AnsweredFailuresAreRecorded(cfg: Config, w: World, email: string, user: Id, row: CredentialRow, code: string,
                                    purpose: Purpose)
    requires user in w.tables.credentials && w.tables.credentials[user] == row
    ensures var o := VerifyOTP(cfg, w, email, user, row, code, purpose);
            && (o.r == Err(OtpInvalid) ==> Answered(w.tables.log, o.w.tables.log, user, Err(OtpInvalid)))
            && (o.r == Err(OtpLocked) ==> Answered(w.tables.log, o.w.tables.log, user, Err(OtpLocked)))
            && (o.r.Err? && o.r.error != OtpInvalid && o.r.error != OtpLocked ==> o.r.error == Infra)
            && (o.r.Ok? ==> o.w.tables.users == w.tables.users)
  {
    hide Totp.Matched, TokensAfter, ChallengesAfter, FlowsAfter, MarkersAfter, JobsAfter, Bound;
  }

  lemma IssueErrors(cfg: Config, w: World, user: Id)
    ensures IssueSession(cfg, w, user).r.Err? ==> IssueSession(cfg, w, user).r.error == Infra
  {
    hide Apply, Note;
  }

  lemma LaterErrors(cfg: Config, w: World, user: Id, challenge: Id, row: CredentialRow, token: Id, password: string)
    ensures !IsOtpError(Admit(cfg, w, user, challenge).r) && !IsOtpError(Enrol(cfg, w, user, row, token).r)
    ensures !IsOtpError(EndSession(w, user).r)
    ensures RequestDeletion(w, user).r.Err? ==> RequestDeletion(w, user).r.error == Infra
    ensures var r := UpdatePassword(w, user, password, ByOwner).r; r.Err? ==> r.error == Infra || r.error == NotFound
  {
    hide IssueSession, Apply, Note;
    IssueErrors(cfg, w, user);
  }

  lemma SetupAnswers(cfg: Config, w: World, token: Id, code: string)
    requires IsOtpError(SetupVerifyOTP(cfg, w, token, code).r)
    ensures var found := UserWithSetup(w.tables.credentials, token, w.tables.top);
            var o := SetupVerifyOTP(cfg, w, token, code);
            found.Some? && Answered(w.tables.log, o.w.tables.log, found.value, o.r)
  {
    hide VerifyOTP, Enrol, Answered, UserWithSetup;
    var (w1, user) := GetBySetupToken(w, token).Extract();
    var row := w1.tables.credentials[user];
    var (w2, u) := GetUser(w1, user).Extract();
    AnsweredFailuresAreRecorded(cfg, w2, u.email, user, row, code, ForSetup);
    var o3 := VerifyOTP(cfg, w2, u.email, user, row, code, ForSetup);
    LaterErrors(cfg, o3.w, user, 0, if o3.r.Ok? then o3.r.value else row, token, "");
  }

  lemma LoginAnswers(cfg: Config, w: World, challenge: Id, code: string)
    requires IsOtpError(LoginVerifyOTP(cfg, w, challenge, code).r)
    ensures var o := LoginVerifyOTP(cfg, w, challenge, code);
            && challenge in w.tables.challenges
            && Answered(w.tables.log, o.w.tables.log, w.tables.challenges[challenge].user, o.r)
  {
    hide VerifyOTP, Admit, Answered;
    var (w1, c) := GetChallenge(w, challenge).Extract();
    var (w2, row) := GetCredential(w1, c.user).Extract();
    var (w3, u) := GetUser(w2, c.user).Extract();
    AnsweredFailuresAreRecorded(cfg, w3, u.email, c.user, row, code, ForLogin);
    LaterErrors(cfg, VerifyOTP(cfg, w3, u.email, c.user, row, code, ForLogin).w, c.user, challenge, row, 0, "");
  }

  lemma ChangeAnswers(cfg: Config, w: World, user: Id, current: string, code: string, newPassword: string)
    requires user in w.tables.credentials && IsOtpError(ChangePassword(cfg, w, user, current, code, newPassword).r)
    ensures var o := ChangePassword(cfg, w, user, current, code, newPassword);
            Answered(w.tables.log, o.w.tables.log, user, o.r)
  {
    hide VerifyOTP, UpdatePassword, EndSession, Answered, Apply;
    var (w1, u) := GetUser(w, user).Extract();
    var (w2, row) := GetCredential(w1, user).Extract();
    AnsweredFailuresAreRecorded(cfg, w2, u.email, user, row, code, ForPasswordChange);
    var o3 := VerifyOTP(cfg, w2, u.email, user, row, code, ForPasswordChange);
    if o3.r.Ok? {
      var o4 := Ask(o3.w);
      LaterErrors(cfg, o4.w, user, 0, row, 0, newPassword);
      var o5 := UpdatePassword(o4.w, user, newPassword, ByOwner);
      LaterErrors(cfg, RevokeAllForUser(o5.w, user).w, user, 0, row, 0, newPassword);
    }
  }

  lemma DeleteAnswers(cfg: Config, w: World, user: Id, code: string)
    requires user in w.tables.credentials && IsOtpError(DeleteAccount(cfg, w, user, code).r)
    ensures var o := DeleteAccount(cfg, w, user, code);
            Answered(w.tables.log, o.w.tables.log, user, o.r)
  {
    hide VerifyOTP, RequestDeletion, Answered, Apply;
    var (w1, u) := GetUser(w, user).Extract();
    var (w2, row) := GetCredential(w1, user).Extract();
    AnsweredFailuresAreRecorded(cfg, w2, u.email, user, row, code, ForDeletion);
    var o3 := VerifyOTP(cfg, w2, u.email, user, row, code, ForDeletion);
    LaterErrors(cfg, o3.w, user, 0, row, 0, "");
  }

  /** A call that presents a code of the user, and is answered with an OTP error, either found
      the account locked and wrote nothing, or wrote one failure and nothing else. */
  lemma GateAnswers(cfg: Config, w: World, request: Request, user: Id)
    requires Presents(w.tables, request, user) && user in w.tables.credentials && IsOtpError(Perform(cfg, w, request).r)
    ensures var o := Perform(cfg, w, request); Answered(w.tables.log, o.w.tables.log, user, o.r)
  {
    hide SetupVerifyOTP, LoginVerifyOTP, ChangePassword, DeleteAccount, UserWithSetup, Answered;
    match request
    case DoSetupVerify(token, code) => SetupAnswers(cfg, w, token, code);
    case DoLoginVerify(challenge, code) => LoginAnswers(cfg, w, challenge, code);
    case DoChangePassword(_, current, code, newPassword) => ChangeAnswers(cfg, w, user, current, code, newPassword);
    case DoDelete(_, code) => DeleteAnswers(cfg, w, user, code);
  }

  /** The call is answered with an OTP error after its code was evaluated: the reply is
      OTP-invalid, or it is OTP-locked and the call wrote something. */
  predicate RepliesWrong(cfg: Config, w: World, call: Call, user: Id) {
    var w1, o := Enter(w, call), Exec(cfg, w, call);
    && Presents(w1.tables, call.request, user) && user in w1.tables.credentials
    && (o.r == Err(OtpInvalid) || (o.r == Err(OtpLocked) && o.w.tables.log != w1.tables.log))
  }

  function WrongReplies(cfg: Config, w: World, calls: seq<Call>, user: Id): nat
    decreases |calls|
  {
    if calls == [] then 0
    else
      WrongReplies(cfg, Exec(cfg, w, calls[0]).w, calls[1..], user)
      + if RepliesWrong(cfg, w, calls[0], user) then 1 else 0
  }

  lemma {:induction false} FailuresSplit(log: seq<Entry>, i: nat, k: nat, user: Id)
    requires i <= k <= |log|
    ensures Failures(log, i, user) == Failures(log[..k], i, user) + Failures(log, k, user)
    decreases |log|
  {
    hide IsFailure;
    if k == |log| {
      assert log[..k] == log;
    } else {
      var n := |log| - 1;
      FailuresSplit(log[..n], i, k, user);
      assert log[..n][..k] == log[..k];
    }
  }

  lemma WrongReplyRecorded(cfg: Config, w: World, call: Call, user: Id)
    requires WorldOk(cfg, [], w) && RepliesWrong(cfg, w, call, user)
    ensures Failures(Exec(cfg, w, call).w.tables.log, |w.tables.log|, user) >= 1
  {
    hide Perform, Legal, Replay, Presents, Apply, IsFailure;
    var w1 := Enter(w, call);
    EnterOneMore(w, call);
    GateAnswers(cfg, w1, call.request, user);
    var log := Exec(cfg, w, call).w.tables.log;
    FailuresSplit(log, |w.tables.log|, |w1.tables.log|, user);
    LastFailure(log, |w1.tables.log|, user);
  }

  lemma EnterOneMore(w: World, call: Call)
    ensures |Enter(w, call).tables.log| == |w.tables.log| + 1
  {
  }

  lemma LastFailure(log: seq<Entry>, k: nat, user: Id)
    requires k == |log| - 1 && IsFailure(log[k].what, user)
    ensures Failures(log, k, user) == 1
  {
  }

  /** Over any run, the gate's OTP-error replies to evaluated codes of a user are at most the
      failures recorded meanwhile. */
  lemma {:induction false} WrongRepliesRecorded(cfg: Config, w: World, calls: seq<Call>, user: Id)
    requires WorldOk(cfg, [], w)
    ensures |w.tables.log| <= |Run(cfg, w, calls).tables.log|
    ensures WrongReplies(cfg, w, calls, user) <= Failures(Run(cfg, w, calls).tables.log, |w.tables.log|, user)
    decreases |calls|
  {
    hide Legal, Replay, Exec, RepliesWrong, Failures;
    if calls != [] {
      var w1 := Exec(cfg, w, calls[0]).w;
      Rebased(cfg, w);
      ExecOk(cfg, w.tables.log, w, calls[0]);
      Rebased(cfg, w1);
      RunsAreLegal(cfg, w1.tables.log, w1, calls[1..]);
      WrongRepliesRecorded(cfg, w1, calls[1..], user);
      var log := Run(cfg, w1, calls[1..]).tables.log;
      if RepliesWrong(cfg, w, calls[0], user) {
        WrongReplyRecorded(cfg, w, calls[0], user);
      }
      assert log[..|w1.tables.log|] == w1.tables.log;
      FailuresSplit(log, |w.tables.log|, |w1.tables.log|, user);
    }
  }

  lemma EnterBegins(cfg: Config, w: World, call: Call)
    requires WorldOk(cfg, [], w)
    ensures var w1 := Enter(w, call);
            && w1.tables.credentials == w.tables.credentials && w1.tables.last == w1.clock
            && |w1.tables.log| == |w.tables.log| + 1 && w1.tables.log[|w.tables.log|].what.Begin?
  {
  }

  /** Over a run, from the entry of its first call on: the failures recorded are within the
      guessing bound for the time since then. */
  lemma RunBudget(cfg: Config, w: World, calls: seq<Call>, user: Id)
    requires cfg.otpMaxAttempts >= 1 && cfg.otpLockout > 0 && calls != []
    requires WorldOk(cfg, [], w) && user in w.tables.credentials && w.tables.credentials[user].enabled
    ensures var v, i := Run(cfg, w, calls), |w.tables.log|;
            var begun := Enter(w, calls[0]).clock;
            && i < |v.tables.log| && begun <= v.tables.last
            && Failures(v.tables.log, i, user)
               <= cfg.otpMaxAttempts * ((v.tables.last - begun) / cfg.otpLockout + 1)
                  + (cfg.otpMaxAttempts - 1) * Successes(v.tables.log, i, user)
  {
    hide Legal, Replay, Perform, Enter, Failures, Successes, IsFailure, IsPass;
    var w1, i := Enter(w, calls[0]), |w.tables.log|;
    EnterBegins(cfg, w, calls[0]);
    EnterOk(cfg, [], w, calls[0]);
    Rebased(cfg, w1);
    PerformOk(cfg, w1.tables.log, w1, calls[0].request);
    RunsAreLegal(cfg, w1.tables.log, Exec(cfg, w, calls[0]).w, calls[1..]);
    var log := Run(cfg, w, calls).tables.log;
    assert log[..i + 1] == w1.tables.log;
    GuessingBound(cfg, log, i + 1, user);
    FailuresSplit(log, i, i + 1, user);
    SuccessesSplit(log, i, i + 1, user);
    BeginIsNeither(log[..i + 1], i, user);
  }

  lemma {:induction false} SuccessesSplit(log: seq<Entry>, i: nat, k: nat, user: Id)
    requires i <= k <= |log|
    ensures Successes(log, i, user) == Successes(log[..k], i, user) + Successes(log, k, user)
    decreases |log|
  {
    hide IsPass;
    if k == |log| {
      assert log[..k] == log;
    } else {
      var n := |log| - 1;
      SuccessesSplit(log[..n], i, k, user);
      assert log[..n][..k] == log[..k];
    }
  }

  lemma BeginIsNeither(log: seq<Entry>, i: nat, user: Id)
    requires |log| == i + 1 && log[i].what.Begin?
    ensures Failures(log, i, user) == 0 && Successes(log, i, user) == 0
  {
  }

  /** So the guessing bound is a bound on replies: over any run that begins with the user's
      credential enabled, and for the time since its first call began, wrong codes are answered
      with an OTP error at most M * (W / L + 1) + (M - 1) * s times across all four callers of
      the gate. */
  lemma WrongRepliesBounded(cfg: Config, w: World, calls: seq<Call>, user: Id)
    requires cfg.otpMaxAttempts >= 1 && cfg.otpLockout > 0 && calls != []
    requires WorldOk(cfg, [], w) && user in w.tables.credentials && w.tables.credentials[user].enabled
    ensures var v, begun := Run(cfg, w, calls), Enter(w, calls[0]).clock;
            && begun <= v.tables.last
            && WrongReplies(cfg, w, calls, user)
               <= cfg.otpMaxAttempts * ((v.tables.last - begun) / cfg.otpLockout + 1)
                  + (cfg.otpMaxAttempts - 1) * Successes(v.tables.log, |w.tables.log|, user)
  {
    hide Legal, Replay, Run, Enter, WrongReplies, Failures, Successes;
    RunBudget(cfg, w, calls, user);
    WrongRepliesRecorded(cfg, w, calls, user);
  }
}
