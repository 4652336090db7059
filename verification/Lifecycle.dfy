/** What an account cannot come back from: a requested deletion, a killed token family, a
    completed enrolment. */
module Lifecycle {
  import opened Basics
  import opened DeletionJobs
  import opened Store
  import opened Repositories
  import opened AuthSpec
  import opened Protocol
  import opened Structure
  import opened Conformance
  import opened Provenance

  // ----- deletion -----

  /** Only accounts whose deletion is pending, or that are gone, have a job; a job as
      requested has one pending step for each service. */
  predicate JobsWellFormed(s: Tables) {
    forall u | u in s.jobs ::
      && u < s.top && (u in s.users ==> s.users[u].deletionPending)
      && s.jobs[u] == NewJob(s.jobs[u].nextAttemptAt)
  }

  lemma JobsWellFormedStep(cfg: Config, s: Tables, at: nat, e: Effect)
    requires IdsBounded(s) && JobsWellFormed(s) && Enabled(cfg, s, at, e)
    ensures JobsWellFormed(Apply(s, at, e))
  {
    hide TokensAfter, CredentialsAfter, ChallengesAfter, FlowsAfter, MarkersAfter;
  }

  lemma {:induction false} JobsAlwaysWellFormed(cfg: Config, log: seq<Entry>)
    requires Legal(cfg, log)
    ensures JobsWellFormed(Replay(log))
  {
    hide Enabled, Apply;
    if log != [] {
      var n := |log| - 1;
      JobsAlwaysWellFormed(cfg, log[..n]);
      Structural(cfg, log[..n]);
      JobsWellFormedStep(cfg, Replay(log[..n]), log[n].at, log[n].what);
    }
  }

  predicate Closing(s: Tables, user: Id, job: Job) {
    && user < s.top && (user in s.users ==> s.users[user].deletionPending)
    && NoLiveToken(s, user)
    && user in s.jobs && s.jobs[user] == job
  }

  lemma ClosingStep(cfg: Config, s: Tables, at: nat, e: Effect, user: Id, job: Job)
    requires Closing(s, user, job) && Enabled(cfg, s, at, e)
    ensures Closing(Apply(s, at, e), user, job)
  {
    hide CredentialsAfter, ChallengesAfter, FlowsAfter, MarkersAfter;
  }

  lemma ClosingBy(cfg: Config, log: seq<Entry>, i: nat, user: Id)
    requires Legal(cfg, log) && i < |log| && log[i].what == AskDeletion(user)
    ensures Closing(Replay(log[..i + 1]), user, NewJob(log[i].at))
  {
    hide Legal, Replay;
    EntryEnabled(cfg, log, i);
    Structural(cfg, log[..i]);
    JobsAlwaysWellFormed(cfg, log[..i]);
  }

  /** After a deletion request, at every later micro-step j: the account never becomes active
      again, it has no live token, its one job is the one requested first, and no later
      write requests deletion again or creates, activates or delivers a session for it. */
  lemma DeletionIsFinal(cfg: Config, log: seq<Entry>, i: nat, j: nat, user: Id)
    requires Legal(cfg, log) && i < j <= |log| && log[i].what == AskDeletion(user)
    ensures Closing(Replay(log[..j]), user, NewJob(log[i].at))
    ensures j < |log| ==>
              var e := log[j].what;
              && e != AskDeletion(user)
              && !(e.Deliver? && e.user == user)
              && !(e.AddToken? && e.row.user == user)
              && !(e.Activate? && e.user == user)
  {
    hide Legal, Replay, Apply;
    var job := NewJob(log[i].at);
    ClosingBy(cfg, log, i, user);
    forall s: Tables, at: nat, e: Effect | Closing(s, user, job) && Enabled(cfg, s, at, e)
      ensures Closing(Apply(s, at, e), user, job)
    {
      ClosingStep(cfg, s, at, e, user, job);
    }
    Persists(cfg, log, s => Closing(s, user, job), i + 1, j);
    if j < |log| {
      EntryEnabled(cfg, log, j);
    }
  }

  /** The job of a request has exactly the seven services' steps, all pending. */
  lemma SevenSteps(now: int)
    ensures NewJob(now).steps.Keys == ALL_SERVICES && |ALL_SERVICES| == 7
    ensures forall service: Service :: service in NewJob(now).steps && NewJob(now).steps[service].status.Pending?
  {
    forall service: Service
      ensures service in ALL_SERVICES
    {
      match service
      case Apiary =>
      case Hive =>
      case Inspection =>
      case Harvest =>
      case Media =>
      case Notification =>
      case Subscription =>
    }
  }

  // ----- killed token families -----

  lemma NoLiveStep(cfg: Config, s: Tables, at: nat, e: Effect, user: Id)
    requires NoLiveToken(s, user) && Enabled(cfg, s, at, e)
    requires !CreatesTokenFor(e, user)
    ensures NoLiveToken(Apply(s, at, e), user)
  {
    hide UsersAfter, CredentialsAfter, ChallengesAfter, FlowsAfter, MarkersAfter, JobsAfter, Bound;
  }

  /** From a call's entry at position i at which the user has no live token, none appears
      before an OTP of the user is accepted for setup or login. */
  lemma {:induction false} NoneUntilOtp(cfg: Config, log: seq<Entry>, i: nat, j: nat, user: Id)
    requires Legal(cfg, log) && i < j <= |log| && log[i].what.Begin?
    requires NoLiveToken(Replay(log[..i]), user)
    requires forall m | i <= m < j :: !OpensByOtp(log[m].what, user)
    ensures NoLiveToken(Replay(log[..j]), user)
    ensures !CreatesTokenFor(log[j - 1].what, user)
    decreases j
  {
    hide Legal, Replay, Enabled, Apply;
    EntryEnabled(cfg, log, j - 1);
    if i < j - 1 {
      NoneUntilOtp(cfg, log, i, j - 1, user);
      if CreatesTokenFor(log[j - 1].what, user) {
        Prelude(cfg, log, j - 1);
        NoneUntilOtp(cfg, log, i, j - 4, user);
        OpeningOf(cfg, log, j - 1);
      }
    }
    NoLiveStep(cfg, Replay(log[..j - 1]), log[j - 1].at, log[j - 1].what, user);
  }

  lemma Prelude(cfg: Config, log: seq<Entry>, k: nat)
    requires Legal(cfg, log) && k < |log| && log[k].what.AddToken?
    ensures k >= 3 && log[k - 1].what.Activate? && log[k - 2].what.RevokeAll? && !log[k - 3].what.Begin?
  {
    hide Legal, Replay, Apply;
    EntryEnabled(cfg, log, k);
    assert log[..k][k - 3] == log[k - 3] && log[..k][k - 2] == log[k - 2] && log[..k][k - 1] == log[k - 1];
  }

  /** What kills every token of a user: a revoked token presented again, and a successful
      password change, password reset or deletion request. */
  lemma ReuseKills(cfg: Config, w: World, raw: Id)
    requires raw in w.tables.tokens && w.tables.tokens[raw].revoked
    requires Refresh(cfg, w, raw).r == Err(InvalidRefreshToken)
    ensures NoLiveToken(Refresh(cfg, w, raw).w.tables, w.tables.tokens[raw].user)
  {
    hide Rotate;
  }

  lemma EndSessionKeepsTokens(w: World, user: Id)
    ensures EndSession(w, user).w.tables.tokens == w.tables.tokens
  {
  }

  lemma ChangeKills(cfg: Config, w: World, user: Id, current: string, code: string, newPassword: string)
    requires ChangePassword(cfg, w, user, current, code, newPassword).r.Ok?
    ensures NoLiveToken(ChangePassword(cfg, w, user, current, code, newPassword).w.tables, user)
  {
    hide VerifyOTP, EndSession, UpdatePassword;
    var (w1, u) := GetUser(w, user).Extract();
    var (w2, row) := GetCredential(w1, user).NotFoundAs(OtpInvalid).Extract();
    var (w3, _) := VerifyOTP(cfg, w2, u.email, user, row, code, ForPasswordChange).Extract();
    var (w4, _) := Ask(w3).Extract();
    var (w5, _) := UpdatePassword(w4, user, newPassword, ByOwner).Extract();
    EndSessionKeepsTokens(RevokeAllForUser(w5, user).w, user);
  }

  lemma ResetKills(w: World, token: Id, newPassword: string)
    requires ConfirmPasswordReset(w, token, newPassword).r.Ok?
    ensures var flow := FlowWithReset(w.tables.flows, token, w.tables.top);
            && flow.Some? && flow.value in w.tables.flows && w.tables.flows[flow.value].user.Some?
            && NoLiveToken(ConfirmPasswordReset(w, token, newPassword).w.tables, w.tables.flows[flow.value].user.value)
  {
    hide EndSession, UpdatePassword, UpdateFlow;
    var (w1, flow) := GetByResetToken(w, token).NotFoundAs(ResetTokenInvalid).Extract();
    var f := w1.tables.flows[flow];
    var user := f.user.value;
    var (w2, _) := Ask(w1).Extract();
    var (w3, _) := UpdatePassword(w2, user, newPassword, ByFlow(flow)).Extract();
    var (w4, _) := UpdateFlow(w3, flow, f.AfterConsumed(), Spent).Extract();
    EndSessionKeepsTokens(RevokeAllForUser(w4, user).w, user);
  }

  /** Dead families stay dead: from a world in which a user has no live token, no run of any
      calls creates, revives or delivers one before an OTP of that user is accepted for
      setup or login. */
  lemma DeadFamiliesStayDead(cfg: Config, w: World, calls: seq<Call>, user: Id)
    requires WorldOk(cfg, [], w) && NoLiveToken(w.tables, user)
    requires var log := Run(cfg, w, calls).tables.log;
             forall m | |w.tables.log| <= m < |log| :: !OpensByOtp(log[m].what, user)
    ensures var log := Run(cfg, w, calls).tables.log;
            && NoLiveToken(Run(cfg, w, calls).tables, user)
            && |w.tables.log| <= |log|
            && forall m | |w.tables.log| <= m < |log| :: !(log[m].what.Deliver? && log[m].what.user == user)
  {
    hide Legal, Replay, Enabled, Apply, Run, NoLiveToken, OpensByOtp;
    if calls == [] {
      RunNothing(cfg, w);
    } else {
      RunBegins(cfg, w, calls);
      var log := Run(cfg, w, calls).tables.log;
      var i := |w.tables.log|;
      assert log[..i] == w.tables.log;
      assert log[..|log|] == log;
      NoneUntilOtp(cfg, log, i, |log|, user);
      forall m | i <= m < |log|
        ensures !(log[m].what.Deliver? && log[m].what.user == user)
      {
        EntryEnabled(cfg, log, m);
        if i < m {
          NoneUntilOtp(cfg, log, i, m, user);
        }
        NoDelivery(cfg, Replay(log[..m]), log[m].at, log[m].what, user);
      }
    }
  }

  /** The way a request hands out sessions, if it does. */
  predicate HandsOut(request: Request, via: Via) {
    || (request.DoRefresh? && via == ViaRefresh(request.raw))
    || (request.DoSetupVerify? && via == ViaSetup(request.token))
    || (request.DoLoginVerify? && via == ViaChallenge(request.challenge))
  }

  /** The reply hands out the session that the log's last entry delivers. */
  predicate RepliesDelivered(o: Out<Result>, request: Request) {
    o.r.Ok? && o.r.value.Session? ==>
      var log := o.w.tables.log;
      && log != []
      && log[|log| - 1].what.Deliver?
      && log[|log| - 1].what.token == o.r.value.token && log[|log| - 1].what.user == o.r.value.user
      && HandsOut(request, log[|log| - 1].what.via)
  }

  lemma LastNoted(w: World, e: Effect)
    ensures var log := Note(w, e).tables.log; log != [] && log[|log| - 1].what == e
  {
  }

  lemma RefreshReplies(cfg: Config, w: World, raw: Id)
    ensures RepliesDelivered(Refresh(cfg, w, raw), DoRefresh(raw))
  {
    hide IssueSession, Write, Note;
    forall v: World, user: Id, token: Id
      ensures var log := Note(v, Deliver(token, user, ViaRefresh(raw))).tables.log;
              log != [] && log[|log| - 1].what == Deliver(token, user, ViaRefresh(raw))
    {
      LastNoted(v, Deliver(token, user, ViaRefresh(raw)));
    }
  }

  lemma SetupReplies(cfg: Config, w: World, token: Id, code: string)
    ensures RepliesDelivered(SetupVerifyOTP(cfg, w, token, code), DoSetupVerify(token, code))
  {
    hide IssueSession, VerifyOTP, Write, Note, UserWithSetup;
    forall v: World, user: Id, t: Id
      ensures var log := Note(v, Deliver(t, user, ViaSetup(token))).tables.log;
              log != [] && log[|log| - 1].what == Deliver(t, user, ViaSetup(token))
    {
      LastNoted(v, Deliver(t, user, ViaSetup(token)));
    }
  }

  lemma LoginReplies(cfg: Config, w: World, challenge: Id, code: string)
    ensures RepliesDelivered(LoginVerifyOTP(cfg, w, challenge, code), DoLoginVerify(challenge, code))
  {
    hide IssueSession, VerifyOTP, Write, Note;
    forall v: World, user: Id, t: Id
      ensures var log := Note(v, Deliver(t, user, ViaChallenge(challenge))).tables.log;
              log != [] && log[|log| - 1].what == Deliver(t, user, ViaChallenge(challenge))
    {
      LastNoted(v, Deliver(t, user, ViaChallenge(challenge)));
    }
  }

  lemma OtherReplies(cfg: Config, w: World, request: Request)
    requires !request.DoRefresh? && !request.DoSetupVerify? && !request.DoLoginVerify?
    ensures var r := Perform(cfg, w, request).r; r.Ok? ==> !r.value.Session?
  {
    hide IssueSession, VerifyOTP, BeginTOTPSetup, IssueLoginChallenge, EndSession, StartFlow, CheckResetCode, Write,
         Note, Refresh,
         SetupVerifyOTP, LoginVerifyOTP, RequestDeletion, UpdatePassword, UpdateFlow, FlowWithReset;
    SetupGivesNoSession(cfg);
  }

  /** Every session in a reply was just delivered, by a refresh, a setup or a login. */
  lemma SessionsAreDelivered(cfg: Config, w: World, request: Request)
    ensures RepliesDelivered(Perform(cfg, w, request), request)
  {
    hide Refresh, SetupVerifyOTP, LoginVerifyOTP, Register, Login, Logout, DeleteAccount, ChangePassword,
         RequestPasswordReset, VerifyPasswordResetOTP, ConfirmPasswordReset, WorkerDelete;
    match request
    case DoRefresh(raw) => RefreshReplies(cfg, w, raw);
    case DoSetupVerify(token, code) => SetupReplies(cfg, w, token, code);
    case DoLoginVerify(challenge, code) => LoginReplies(cfg, w, challenge, code);
    case _ => OtherReplies(cfg, w, request);
  }

  lemma SetupGivesNoSession(cfg: Config)
    ensures forall w, user :: BeginTOTPSetup(cfg, w, user).r.Ok? ==> !BeginTOTPSetup(cfg, w, user).r.value.Session?
    ensures forall w, user ::
              IssueLoginChallenge(cfg, w, user).r.Ok? ==> !IssueLoginChallenge(cfg, w, user).r.value.Session?
    ensures forall w, user :: StartFlow(cfg, w, user).r.Ok? ==> !StartFlow(cfg, w, user).r.value.Session?
    ensures forall w, user :: EndSession(w, user).r.Ok? ==> !EndSession(w, user).r.value.Session?
  {
    hide Write, Apply;
  }

  /** So no refresh, with whatever token, succeeds for a user whose token family is dead until
      an OTP of that user is accepted for setup or login. */
  lemma NoRefreshSucceeds(cfg: Config, w: World, calls: seq<Call>, call: Call, user: Id)
    requires WorldOk(cfg, [], w) && NoLiveToken(w.tables, user)
    requires call.request.DoRefresh?
    requires var log := Exec(cfg, Run(cfg, w, calls), call).w.tables.log;
             forall m | |w.tables.log| <= m < |log| :: !OpensByOtp(log[m].what, user)
    ensures var r := Exec(cfg, Run(cfg, w, calls), call).r;
            !(r.Ok? && r.value.Session? && r.value.user == user)
  {
    hide Legal, Replay, Perform, Apply, OpensByOtp, NoLiveToken;
    RunAppend(cfg, w, calls, call);
    DeadFamiliesStayDead(cfg, w, calls + [call], user);
    var v := Enter(Run(cfg, w, calls), call);
    SessionsAreDelivered(cfg, v, call.request);
    RunsAreLegal(cfg, w.tables.log, w, calls);
    EnterOk(cfg, w.tables.log, Run(cfg, w, calls), call);
    EnterAppends(Run(cfg, w, calls), call);
    PerformOk(cfg, v.tables.log, v, call.request);
  }

  lemma EnterAppends(w: World, call: Call)
    ensures |Enter(w, call).tables.log| == |w.tables.log| + 1
  {
  }

  lemma {:induction false} RunAppend(cfg: Config, w: World, calls: seq<Call>, call: Call)
    ensures Run(cfg, w, calls + [call]) == Exec(cfg, Run(cfg, w, calls), call).w
    decreases |calls|
  {
    hide Exec;
    if calls == [] {
      assert [] + [call] == [call];
      assert [call][1..] == [];
    } else {
      assert (calls + [call])[1..] == calls[1..] + [call];
      RunAppend(cfg, Exec(cfg, w, calls[0]).w, calls[1..], call);
    }
  }

  lemma NoDelivery(cfg: Config, s: Tables, at: nat, e: Effect, user: Id)
    requires NoLiveToken(s, user) && Enabled(cfg, s, at, e)
    ensures !(e.Deliver? && e.user == user)
  {
  }

  lemma RunNothing(cfg: Config, w: World)
    ensures Run(cfg, w, []) == w
  {
  }

  /** A run's log extends the log before it with the entry of its first call. */
  lemma RunBegins(cfg: Config, w: World, calls: seq<Call>)
    requires WorldOk(cfg, [], w) && calls != []
    ensures var w1 := Run(cfg, w, calls);
            && WorldOk(cfg, w.tables.log, w1)
            && |w.tables.log| < |w1.tables.log| && w1.tables.log[|w.tables.log|].what.Begin?
  {
    hide Legal, Replay, Perform, UsersAfter, TokensAfter, CredentialsAfter, ChallengesAfter, FlowsAfter,
         MarkersAfter, JobsAfter;
    var entered := Enter(w, calls[0]);
    EnterOk(cfg, w.tables.log, w, calls[0]);
    PerformOk(cfg, entered.tables.log, entered, calls[0].request);
    RunsAreLegal(cfg, entered.tables.log, Exec(cfg, w, calls[0]).w, calls[1..]);
  }

  // ----- enrolment -----

  predicate EnrolledWith(s: Tables, user: Id, secret: Id) {
    && user < s.top
    && (user in s.credentials ==> s.credentials[user].enabled && s.credentials[user].secret == secret)
    && (user !in s.credentials ==> user !in s.users)
  }

  lemma EnrolledWithStep(cfg: Config, s: Tables, at: nat, e: Effect, user: Id, secret: Id)
    requires EnrolledWith(s, user, secret) && Enabled(cfg, s, at, e)
    ensures EnrolledWith(Apply(s, at, e), user, secret)
  {
    hide TokensAfter, ChallengesAfter, FlowsAfter, MarkersAfter, JobsAfter;
  }

  /** A credential is either enabled or has a pending setup token, never both or neither. */
  predicate EitherOr(s: Tables) {
    forall u | u in s.credentials :: s.credentials[u].enabled <==> s.credentials[u].setup.None?
  }

  lemma EitherOrStep(cfg: Config, s: Tables, at: nat, e: Effect)
    requires EitherOr(s) && Enabled(cfg, s, at, e)
    ensures EitherOr(Apply(s, at, e))
  {
    hide UsersAfter, TokensAfter, ChallengesAfter, FlowsAfter, MarkersAfter, JobsAfter, Bound;
  }

  lemma {:induction false} AlwaysEitherOr(cfg: Config, log: seq<Entry>)
    requires Legal(cfg, log)
    ensures EitherOr(Replay(log))
  {
    hide Enabled, Apply;
    if log != [] {
      var n := |log| - 1;
      AlwaysEitherOr(cfg, log[..n]);
      EitherOrStep(cfg, Replay(log[..n]), log[n].at, log[n].what);
    }
  }

  /** Once enabled, a credential stays enabled with the same secret until its account is
      deleted for good. */
  lemma EnrolmentIsStable(cfg: Config, log: seq<Entry>, i: nat, j: nat, user: Id)
    requires Legal(cfg, log) && i <= j <= |log|
    requires user in Replay(log[..i]).credentials && Replay(log[..i]).credentials[user].enabled
    ensures EnrolledWith(Replay(log[..j]), user, Replay(log[..i]).credentials[user].secret)
    ensures EitherOr(Replay(log[..j]))
  {
    hide Legal, Replay, Apply, Enabled;
    PrefixLegal(cfg, log, i);
    PrefixLegal(cfg, log, j);
    AlwaysEitherOr(cfg, log[..j]);
    Structural(cfg, log[..i]);
    var secret := Replay(log[..i]).credentials[user].secret;
    forall s: Tables, at: nat, e: Effect | EnrolledWith(s, user, secret) && Enabled(cfg, s, at, e)
      ensures EnrolledWith(Apply(s, at, e), user, secret)
    {
      EnrolledWithStep(cfg, s, at, e, user, secret);
    }
    Persists(cfg, log, s => EnrolledWith(s, user, secret), i, j);
  }
}
