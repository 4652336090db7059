/** The history of a password-reset flow. */
module ResetHistory {
  import opened Basics
  import opened ResetFlows
  import opened Store
  import opened Repositories
  import opened AuthSpec
  import opened Protocol
  import opened Structure
  import opened Conformance
  import opened Provenance

  predicate Verifies(e: Effect, flow: Id) {
    e.WriteFlow? && e.flow == flow && e.whyFlow.Verified?
  }

  predicate Misses(e: Effect, flow: Id) {
    e.WriteFlow? && e.flow == flow && e.whyFlow.Missed?
  }

  predicate Spends(e: Effect, flow: Id) {
    e.WriteFlow? && e.flow == flow && e.whyFlow.Spent?
  }

  predicate Resets(e: Effect, flow: Id) {
    e.SetPassword? && e.origin == ByFlow(flow)
  }

  // ----- a password reset follows exactly one verification -----

  predicate VerifiedInLog(s: Tables, flow: Id) {
    flow in s.flows && s.flows[flow].otpVerified ==> exists i | 0 <= i < |s.log| :: Verifies(s.log[i].what, flow)
  }

  lemma VerifiedInLogStep(cfg: Config, s: Tables, at: nat, e: Effect, flow: Id)
    requires VerifiedInLog(s, flow) && Enabled(cfg, s, at, e)
    ensures VerifiedInLog(Apply(s, at, e), flow)
  {
    hide UsersAfter, TokensAfter, CredentialsAfter, ChallengesAfter, MarkersAfter, JobsAfter, Bound;
    var s' := Apply(s, at, e);
    var n := |s.log|;
    assert s'.log[n].what == e && s'.log[..n] == s.log;
    assert forall i | 0 <= i < n :: s'.log[i] == s.log[i];
    if flow in s'.flows && s'.flows[flow].otpVerified && !Verifies(e, flow) {
      var i :| 0 <= i < n && Verifies(s.log[i].what, flow);
      assert Verifies(s'.log[i].what, flow);
    } else {
      assert Verifies(s'.log[n].what, flow) <==> Verifies(e, flow);
    }
  }

  lemma {:induction false} AlwaysVerifiedInLog(cfg: Config, log: seq<Entry>, flow: Id)
    requires Legal(cfg, log)
    ensures VerifiedInLog(Replay(log), flow)
  {
    hide Enabled, Apply;
    if log != [] {
      var n := |log| - 1;
      AlwaysVerifiedInLog(cfg, log[..n], flow);
      VerifiedInLogStep(cfg, Replay(log[..n]), log[n].at, log[n].what, flow);
    }
  }

  /** The flow's OTP step is over for good. */
  predicate PastOtp(s: Tables, flow: Id) {
    flow < s.top && (flow in s.flows ==> s.flows[flow].otpVerified)
  }

  lemma PastOtpStep(cfg: Config, s: Tables, at: nat, e: Effect, flow: Id)
    requires PastOtp(s, flow) && Enabled(cfg, s, at, e)
    ensures PastOtp(Apply(s, at, e), flow)
  {
    hide UsersAfter, TokensAfter, CredentialsAfter, ChallengesAfter, MarkersAfter, JobsAfter;
  }

  lemma PastOtpBy(cfg: Config, log: seq<Entry>, i: nat, flow: Id)
    requires Legal(cfg, log) && i < |log| && Verifies(log[i].what, flow)
    ensures PastOtp(Replay(log[..i + 1]), flow)
  {
    hide Legal, Replay;
    EntryEnabled(cfg, log, i);
    Structural(cfg, log[..i]);
  }

  lemma VerifiedOnce(cfg: Config, log: seq<Entry>, i: nat, j: nat, flow: Id)
    requires Legal(cfg, log) && i <= j < |log| && Verifies(log[i].what, flow) && Verifies(log[j].what, flow)
    ensures i == j
  {
    hide Legal, Replay, Apply;
    EntryEnabled(cfg, log, j);
    if i < j {
      PastOtpBy(cfg, log, i, flow);
      forall s: Tables, at: nat, e: Effect | PastOtp(s, flow) && Enabled(cfg, s, at, e)
        ensures PastOtp(Apply(s, at, e), flow)
      {
        PastOtpStep(cfg, s, at, e, flow);
      }
      Persists(cfg, log, s => PastOtp(s, flow), i + 1, j);
    }
  }

  /** A code of the user was accepted just before entry i: it was recorded as used by a reset,
      or the account is the demo account, whose fixed code is not recorded. */
  predicate CodeAccepted(log: seq<Entry>, i: nat, user: Id)
    requires i < |log|
  {
    || (i > 0 && IsResetUse(log[i - 1].what, user))
    || (var s := Replay(log[..i]); user in s.users && s.users[user].email == DEMO_EMAIL)
  }

  lemma VerifiedByCode(cfg: Config, log: seq<Entry>, i: nat, flow: Id)
    requires Legal(cfg, log) && i < |log| && Verifies(log[i].what, flow)
    ensures log[i].what.flowRow.user.Some? && CodeAccepted(log, i, log[i].what.flowRow.user.value)
  {
    hide Legal, Replay, Apply;
    EntryEnabled(cfg, log, i);
    assert i > 0 ==> log[..i][i - 1] == log[i - 1];
  }

  /** Every password reset through a flow follows exactly one verification of that flow, by a
      code accepted for the flow's own account, whose password it is. */
  lemma ResetFollowsOneVerification(cfg: Config, log: seq<Entry>, j: nat, flow: Id)
    returns (i: nat)
    requires Legal(cfg, log) && j < |log| && Resets(log[j].what, flow)
    ensures i < j && Verifies(log[i].what, flow) && log[i].what.flowRow.user == Some(log[j].what.user)
    ensures CodeAccepted(log, i, log[j].what.user)
    ensures forall k | 0 <= k < |log| && Verifies(log[k].what, flow) :: k == i
  {
    hide Legal, Replay, Apply;
    EntryEnabled(cfg, log, j);
    AlwaysVerifiedInLog(cfg, log[..j], flow);
    i :| 0 <= i < j && Verifies(log[..j][i].what, flow);
    forall k | 0 <= k < |log| && Verifies(log[k].what, flow)
      ensures k == i
    {
      VerifiedOnce(cfg, log, if k <= i then k else i, if k <= i then i else k, flow);
    }
    SameUser(cfg, log, i, j, flow);
    VerifiedByCode(cfg, log, i, flow);
  }

  predicate OwnedBy(s: Tables, flow: Id, user: Option<Id>) {
    flow < s.top && (flow in s.flows ==> s.flows[flow].user == user)
  }

  lemma OwnedByStep(cfg: Config, s: Tables, at: nat, e: Effect, flow: Id, user: Option<Id>)
    requires OwnedBy(s, flow, user) && Enabled(cfg, s, at, e)
    ensures OwnedBy(Apply(s, at, e), flow, user)
  {
    hide UsersAfter, TokensAfter, CredentialsAfter, ChallengesAfter, MarkersAfter, JobsAfter;
  }

  lemma OwnedFrom(cfg: Config, log: seq<Entry>, i: nat, flow: Id)
    requires Legal(cfg, log) && i < |log| && Verifies(log[i].what, flow)
    ensures OwnedBy(Replay(log[..i + 1]), flow, log[i].what.flowRow.user)
  {
    hide Legal, Replay;
    EntryEnabled(cfg, log, i);
    Structural(cfg, log[..i]);
  }

  lemma SameUser(cfg: Config, log: seq<Entry>, i: nat, j: nat, flow: Id)
    requires Legal(cfg, log) && i < j < |log| && Verifies(log[i].what, flow) && Resets(log[j].what, flow)
    ensures log[i].what.flowRow.user == Some(log[j].what.user)
  {
    hide Legal, Replay, Apply;
    var user := log[i].what.flowRow.user;
    OwnedFrom(cfg, log, i, flow);
    forall s: Tables, at: nat, e: Effect | OwnedBy(s, flow, user) && Enabled(cfg, s, at, e)
      ensures OwnedBy(Apply(s, at, e), flow, user)
    {
      OwnedByStep(cfg, s, at, e, flow, user);
    }
    Persists(cfg, log, s => OwnedBy(s, flow, user), i + 1, j);
    EntryEnabled(cfg, log, j);
  }

  lemma OwnedOnceAdded(cfg: Config, log: seq<Entry>, k: nat)
    requires Legal(cfg, log) && k < |log| && log[k].what.AddFlow?
    ensures OwnedBy(Replay(log[..k + 1]), log[k].what.flow, log[k].what.flowRow.user)
    ensures Replay(log[..k]).top <= log[k].what.flow
  {
    hide Legal, Replay;
    EntryEnabled(cfg, log, k);
  }

  /** A flow that was opened for no account, because the email is unknown or its enrolment is
      not complete, is verified at no moment of the run. */
  lemma IneligibleNeverVerified(cfg: Config, log: seq<Entry>, k: nat, i: nat)
    requires Legal(cfg, log) && k < |log| && log[k].what.AddFlow? && log[k].what.flowRow.user.None?
    requires i < |log|
    ensures !Verifies(log[i].what, log[k].what.flow)
  {
    hide Legal, Replay, Apply;
    var flow := log[k].what.flow;
    OwnedOnceAdded(cfg, log, k);
    if k < i {
      forall s: Tables, at: nat, e: Effect | OwnedBy(s, flow, None) && Enabled(cfg, s, at, e)
        ensures OwnedBy(Apply(s, at, e), flow, None)
      {
        OwnedByStep(cfg, s, at, e, flow, None);
      }
      Persists(cfg, log, s => OwnedBy(s, flow, None), k + 1, i);
      EntryEnabled(cfg, log, i);
    } else if i < k && Verifies(log[i].what, flow) {
      PastOtpBy(cfg, log, i, flow);
      forall s: Tables, at: nat, e: Effect | PastOtp(s, flow) && Enabled(cfg, s, at, e)
        ensures PastOtp(Apply(s, at, e), flow)
      {
        PastOtpStep(cfg, s, at, e, flow);
      }
      Persists(cfg, log, s => PastOtp(s, flow), i + 1, k);
    }
  }

  // ----- at most one confirmation succeeds -----

  predicate Over(s: Tables, flow: Id) {
    flow < s.top && (flow in s.flows ==> s.flows[flow].consumed)
  }

  lemma OverStep(cfg: Config, s: Tables, at: nat, e: Effect, flow: Id)
    requires Over(s, flow) && Enabled(cfg, s, at, e)
    ensures Over(Apply(s, at, e), flow)
  {
    hide UsersAfter, TokensAfter, CredentialsAfter, ChallengesAfter, MarkersAfter, JobsAfter;
  }

  lemma OverBy(cfg: Config, log: seq<Entry>, i: nat, flow: Id)
    requires Legal(cfg, log) && i < |log| && Spends(log[i].what, flow)
    ensures Over(Replay(log[..i + 1]), flow)
  {
    hide Legal, Replay;
    EntryEnabled(cfg, log, i);
    Structural(cfg, log[..i]);
  }

  /** A flow is consumed at most once. */
  lemma SpentOnce(cfg: Config, log: seq<Entry>, i: nat, j: nat, flow: Id)
    requires Legal(cfg, log) && i <= j < |log| && Spends(log[i].what, flow) && Spends(log[j].what, flow)
    ensures i == j
  {
    hide Legal, Replay, Apply;
    EntryEnabled(cfg, log, j);
    if i < j {
      OverBy(cfg, log, i, flow);
      forall s: Tables, at: nat, e: Effect | Over(s, flow) && Enabled(cfg, s, at, e)
        ensures Over(Apply(s, at, e), flow)
      {
        OverStep(cfg, s, at, e, flow);
      }
      Persists(cfg, log, s => Over(s, flow), i + 1, j);
    }
  }

  /** A successful confirmation resets the password of its flow's account and then consumes
      that flow, as its first two writes. */
  lemma ConfirmationSpends(w: World, token: Id, newPassword: string)
    requires ConfirmPasswordReset(w, token, newPassword).r.Ok?
    ensures var flow := FlowWithReset(w.tables.flows, token, w.tables.top);
            var log := ConfirmPasswordReset(w, token, newPassword).w.tables.log;
            var n := |w.tables.log|;
            && flow.Some? && |log| >= n + 2
            && Resets(log[n].what, flow.value) && log[n].what.password == newPassword
            && Spends(log[n + 1].what, flow.value)
  {
    hide RevokeAllForUser, EndSession, FlowWithReset, UsersAfter, TokensAfter, CredentialsAfter, ChallengesAfter,
         MarkersAfter, JobsAfter, Bound;
    var (w1, flow) := GetByResetToken(w, token).NotFoundAs(ResetTokenInvalid).Extract();
    var f := w1.tables.flows[flow];
    var user := f.user.value;
    var (w2, _) := Ask(w1).Extract();
    var (w3, _) := UpdatePassword(w2, user, newPassword, ByFlow(flow)).Extract();
    var (w4, _) := UpdateFlow(w3, flow, f.AfterConsumed(), Spent).Extract();
    var n := |w.tables.log|;
    assert |w4.tables.log| == n + 2;
    assert w4.tables.log[n].what == SetPassword(user, newPassword, ByFlow(flow));
    assert w4.tables.log[n + 1].what == WriteFlow(flow, f.AfterConsumed(), Spent);
    TailExtends(w4, user);
  }

  lemma TailExtends(w: World, user: Id)
    ensures var o := RevokeAllForUser(w, user);
            && w.tables.log <= o.w.tables.log
            && (o.r.Ok? ==> w.tables.log <= EndSession(o.w, user).w.tables.log)
  {
  }

  lemma ConfirmationExtends(cfg: Config, w: World, token: Id, newPassword: string)
    requires WorldOk(cfg, [], w)
    ensures WorldOk(cfg, w.tables.log, ConfirmPasswordReset(w, token, newPassword).w)
  {
    hide Legal, Replay, ConfirmPasswordReset;
    ConfirmPasswordResetOk(cfg, w.tables.log, w, token, newPassword);
  }

  /** At most one confirmation of a flow succeeds: after one has, whatever calls follow, no
      later call that confirms the same flow is answered with success. */
  lemma ConfirmedOnce(cfg: Config, w: World, token: Id, newPassword: string, calls: seq<Call>, call: Call)
    requires WorldOk(cfg, [], w) && ConfirmPasswordReset(w, token, newPassword).r.Ok?
    requires call.request.DoConfirmReset?
    requires var v := Run(cfg, ConfirmPasswordReset(w, token, newPassword).w, calls);
             FlowWithReset(w.tables.flows, token, w.tables.top)
             == FlowWithReset(v.tables.flows, call.request.token, v.tables.top)
    ensures var v := Run(cfg, ConfirmPasswordReset(w, token, newPassword).w, calls);
            Exec(cfg, v, call).r.Err?
  {
    hide Legal, Replay, Run, ConfirmPasswordReset, FlowWithReset, Apply;
    var w1 := ConfirmPasswordReset(w, token, newPassword).w;
    var v := Run(cfg, w1, calls);
    var v1 := Enter(v, call);
    ConfirmationExtends(cfg, w, token, newPassword);
    RunsAreLegal(cfg, w1.tables.log, w1, calls);
    EnterOk(cfg, w1.tables.log, v, call);
    EnterKeepsFlows(v, call);
    if Exec(cfg, v, call).r.Ok? {
      var n, m := |w.tables.log| + 1, |v1.tables.log| + 1;
      ConfirmationSpends(w, token, newPassword);
      ConfirmationSpends(v1, call.request.token, call.request.newPassword);
      var flow := FlowWithReset(w.tables.flows, token, w.tables.top).value;
      var log := ConfirmPasswordReset(v1, call.request.token, call.request.newPassword).w.tables.log;
      ConfirmationExtends(cfg, v1, call.request.token, call.request.newPassword);
      assert log[n] == v1.tables.log[n] == w1.tables.log[n];
      SpentOnce(cfg, log, n, m, flow);
    }
  }

  lemma EnterKeepsFlows(w: World, call: Call)
    ensures var v := Enter(w, call);
            v.tables.flows == w.tables.flows && v.tables.top == w.tables.top
  {
  }

  // ----- the cap on evaluated codes -----

  /** Codes evaluated on the flow, right or wrong. */
  function Evaluations(log: seq<Entry>, flow: Id): nat {
    if log == [] then 0
    else
      var n := |log| - 1;
      Evaluations(log[..n], flow) + if Verifies(log[n].what, flow) || Misses(log[n].what, flow) then 1 else 0
  }

  predicate Capped(cfg: Config, s: Tables, flow: Id, n: nat) {
    && (n <= cfg.resetFlowMaxAttempts || n == 0)
    && (flow in s.flows ==> n == s.flows[flow].otpAttempts + if s.flows[flow].otpVerified then 1 else 0)
    && (s.top <= flow ==> n == 0)
  }

  lemma CappedStep(cfg: Config, s: Tables, at: nat, e: Effect, flow: Id, n: nat)
    requires Capped(cfg, s, flow, n) && IdsBounded(s) && Enabled(cfg, s, at, e)
    ensures Capped(cfg, Apply(s, at, e), flow, n + if Verifies(e, flow) || Misses(e, flow) then 1 else 0)
  {
    hide UsersAfter, TokensAfter, CredentialsAfter, ChallengesAfter, MarkersAfter, JobsAfter;
  }

  lemma {:induction false} AlwaysCapped(cfg: Config, log: seq<Entry>, flow: Id)
    requires Legal(cfg, log)
    ensures Capped(cfg, Replay(log), flow, Evaluations(log, flow))
  {
    hide Enabled, Apply, Capped;
    if log != [] {
      var n := |log| - 1;
      AlwaysCapped(cfg, log[..n], flow);
      Structural(cfg, log[..n]);
      CappedStep(cfg, Replay(log[..n]), log[n].at, log[n].what, flow, Evaluations(log[..n], flow));
    } else {
      CappedFromStart(cfg, flow);
    }
  }

  lemma CappedFromStart(cfg: Config, flow: Id)
    ensures Capped(cfg, EMPTY, flow, 0)
  {
  }

  /** With a cap of at least 1, a flow evaluates at most that many codes, the successful one
      included. */
  lemma EvaluationsCapped(cfg: Config, log: seq<Entry>, flow: Id)
    requires Legal(cfg, log) && cfg.resetFlowMaxAttempts >= 1
    ensures Evaluations(log, flow) <= cfg.resetFlowMaxAttempts
  {
    hide Legal, Replay, Evaluations;
    AlwaysCapped(cfg, log, flow);
  }
}
