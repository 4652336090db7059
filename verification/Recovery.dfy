/** Password recovery answered exactly: the request, the code, the confirmation. */
module Recovery {
  import opened Basics
  import opened Credentials
  import opened ResetFlows
  import opened Store
  import opened Repositories
  import opened AuthSpec
  import opened Protocol
  import opened Structure
  import opened Conformance
  import opened ResetHistory
  import opened ResetPrivacy
  import opened Outcomes
  import opened Admissions
  import opened Accounts

  /** No user, token, challenge, marker or job row differs. */
  predicate SameAccess(s: Tables, r: Tables) {
    && s.users == r.users && s.tokens == r.tokens && s.challenges == r.challenges
    && s.markers == r.markers && s.jobs == r.jobs
  }

  // ----- the request -----

  predicate Eligible(s: Tables, user: Id, address: string) {
    && user in s.users && s.users[user].email == address
    && user in s.credentials && s.credentials[user].enabled
  }

  lemma FlowRowOnly(s: Tables, at: nat, flow: Id, row: FlowRow, why: FlowWrite)
    ensures var s1, s2 := Apply(s, at, AddFlow(flow, row)), Apply(s, at, WriteFlow(flow, row, why));
            && s1.flows == s2.flows == s.flows[flow := row]
            && s1.credentials == s2.credentials == s.credentials
            && SameAccess(s1, s) && SameAccess(s2, s)
  {
  }

  lemma StartExactly(cfg: Config, v: World, w: World, n: nat, user: Option<Id>)
    requires NoFaults(w.plan) && Reached(v, w, n) && (user.Some? ==> user.value in v.tables.users)
    ensures var o := StartFlow(cfg, v, user);
            var expiresAt := ClockAt(w, n + 1) + cfg.resetFlowTTL;
            && o.r == Ok(FlowStarted(v.next, expiresAt))
            && o.w.tables.flows == v.tables.flows[v.next := FlowRow(user, expiresAt, false, 0, None, false)]
            && o.w.tables.credentials == v.tables.credentials && SameAccess(o.w.tables, v.tables)
  {
    hide Turn, Write, Draw, Apply, NoFaults, Reached, ClockAt, SameAccess;
    OneCall(v, w, n);
    var v1 := Draw(v).w;
    ReachedClock(v1, w, n + 1);
    var row := FlowRow(user, ClockAt(w, n + 1) + cfg.resetFlowTTL, false, 0, None, false);
    OneWrite(v1, w, n + 1, AddFlow(v.next, row));
    FlowRowOnly(v1.tables, ClockAt(w, n + 2), v.next, row, Missed);
  }

  /** Every request opens a flow that lives for one flow lifetime. It belongs to the account with
      that address exactly if the account is enrolled, and otherwise to nobody. */
  lemma RequestExactly(cfg: Config, w: World, email: string)
    requires WorldOk(cfg, [], w) && NoFaults(w.plan)
    ensures var o := RequestPasswordReset(cfg, w, email);
            var s, s', address, flow := w.tables, o.w.tables, cfg.normalizeEmail(email), w.next;
            var looked := if exists u | u in s.users :: s.users[u].email == address then 2 else 1;
            var expiresAt := ClockAt(w, looked + 1) + cfg.resetFlowTTL;
            && o.r == Ok(FlowStarted(flow, expiresAt))
            && flow in s'.flows && s'.flows == s.flows[flow := s'.flows[flow]]
            && s'.flows[flow] == FlowRow(s'.flows[flow].user, expiresAt, false, 0, None, false)
            && (forall user: Id :: s'.flows[flow].user == Some(user) <==> Eligible(s, user, address))
            && s'.credentials == s.credentials && SameAccess(s', s)
  {
    hide Turn, StartFlow, NoFaults, Reached, ClockAt, WorldOk, SameAccess, UserWithEmail;
    var address := cfg.normalizeEmail(email);
    LaterReads(w, 0);
    OneCall(w, w, 0);
    var w1 := Turn(w);
    OneCall(w1, w, 1);
    var w2 := Turn(w1);
    if u :| u in w.tables.users && w.tables.users[u].email == address {
      EmailFound(cfg, w, u, address);
      var eligible := u in w.tables.credentials && w.tables.credentials[u].enabled;
      StartExactly(cfg, w2, w, 2, if eligible then Some(u) else None);
    } else {
      StartExactly(cfg, w1, w, 1, None);
    }
  }

  // ----- the code -----

  /** The counter as which a code opens the flow, if it does: the flow must belong to an account,
      which must still be enrolled and accept the code. A lock on the account does not matter. */
  function ResetCounter(cfg: Config, s: Tables, flow: FlowRow, code: string, checked: nat): Option<nat> {
    if flow.user.None? || flow.user.value !in s.users || flow.user.value !in s.credentials then None
    else if !s.credentials[flow.user.value].enabled then None
    else AcceptedAs(cfg, s.credentials[flow.user.value], s.users[flow.user.value].email, code, checked)
  }

  predicate IsDemo(s: Tables, user: Id, code: string) {
    user in s.users && s.users[user].email == DEMO_EMAIL && code == DEMO_CODE
  }

  /** The credentials once the counter is remembered, which the demo code does not need. */
  function WithCounter(s: Tables, user: Id, code: string, counter: nat): map<Id, CredentialRow>
    requires user in s.credentials
  {
    if IsDemo(s, user, code) then s.credentials
    else s.credentials[user := s.credentials[user].(lastUsedCounter := Some(counter))]
  }

  /** How many port calls the check makes. */
  function CheckCalls(s: Tables, flow: FlowRow, code: string, right: bool): nat {
    if flow.user.None? then 0
    else if flow.user.value !in s.credentials || !s.credentials[flow.user.value].enabled then 1
    else if IsDemo(s, flow.user.value, code) then 2
    else if right then 4
    else 3
  }

  lemma CheckExactly(cfg: Config, v: World, w: World, n: nat, flow: FlowRow, code: string)
    requires NoFaults(w.plan) && Reached(v, w, n)
    requires flow.user.Some? && flow.user.value in v.tables.credentials ==> flow.user.value in v.tables.users
    ensures var o := CheckResetCode(cfg, v, flow, code);
            var counter := ResetCounter(cfg, v.tables, flow, code, ClockAt(w, n + 3));
            && o.r == Ok(counter.Some?) && o.w.next == v.next
            && o.w.tables.flows == v.tables.flows && SameAccess(o.w.tables, v.tables)
            && Reached(o.w, w, n + CheckCalls(v.tables, flow, code, counter.Some?))
            && o.w.tables.credentials
               == if counter.Some? then WithCounter(v.tables, flow.user.value, code, counter.value)
                  else v.tables.credentials
  {
    hide Turn, Write, Apply, NoFaults, Reached, ClockAt, ValidateOTP, AcceptedAs, Accepts;
    if flow.user.Some? {
      var user := flow.user.value;
      OneCall(v, w, n);
      var v1 := Turn(v);
      if user in v.tables.credentials && v.tables.credentials[user].enabled {
        OneCall(v1, w, n + 1);
        var v2 := Turn(v1);
        var email, row := v.tables.users[user].email, v.tables.credentials[user];
        Judged(cfg, v2, w, n + 2, email, row, code);
        var o3 := ValidateOTP(cfg, v2, email, row, code);
        var verdict := o3.r.value;
        if Accepts(row, verdict) && !verdict.demo {
          var e := WriteCredential(user, row.WithCodeUsed(verdict.counter), UsedByReset(verdict.counter, o3.w.clock));
          OneWrite(o3.w, w, n + 3, e);
          CredentialRowOnly(o3.w.tables, ClockAt(w, n + 4), user, e.credential, e.why);
        }
      }
    }
  }

  /** A flow takes codes until it expires, is verified, is consumed or has missed too often. A code
      of its account verifies it: the answer is the stored reset token, which lives for one token
      lifetime, and the code counts as used. Any other code is counted against the flow and
      nothing else. */
  lemma VerifyResetExactly(cfg: Config, w: World, flow: Id, code: string)
    requires WorldOk(cfg, [], w) && NoFaults(w.plan)
    ensures var o := VerifyPasswordResetOTP(cfg, w, flow, code);
            var s, s' := w.tables, o.w.tables;
            if flow !in s.flows || s.flows[flow].expiresAt < ClockAt(w, 1) || s.flows[flow].consumed
               || s.flows[flow].otpVerified then
              o.r == Err(FlowInvalid) && s' == s
            else if s.flows[flow].otpAttempts >= cfg.resetFlowMaxAttempts then
              o.r == Err(OtpLocked) && s' == s
            else
              var f := s.flows[flow];
              var counter := ResetCounter(cfg, s, f, code, ClockAt(w, 4));
              && SameAccess(s', s)
              && if counter.Some? then
                   var token := w.next;
                   var expiresAt := ClockAt(w, CheckCalls(s, f, code, true) + 2) + cfg.resetTokenTTL;
                   && o.r == Ok(ResetAllowed(token, expiresAt))
                   && s'.flows
                      == s.flows[flow := f.(otpVerified := true, reset := Some(ResetToken(token, expiresAt)))]
                   && s'.credentials == WithCounter(s, f.user.value, code, counter.value)
                 else
                   && o.r == Err(if f.otpAttempts + 1 >= cfg.resetFlowMaxAttempts then OtpLocked else OtpInvalid)
                   && s'.flows == s.flows[flow := f.(otpAttempts := f.otpAttempts + 1)]
                   && s'.credentials == s.credentials
  {
    hide Turn, Write, Draw, Apply, NoFaults, Reached, ClockAt, CheckResetCode, ResetCounter, CheckCalls, WithCounter,
         SameAccess, WorldOk;
    EnrolledExist(cfg, w);
    LaterReads(w, 0);
    OneCall(w, w, 0);
    var w1 := Turn(w);
    ReachedClock(w1, w, 1);
    if flow in w.tables.flows {
      var f := w.tables.flows[flow];
      CheckExactly(cfg, w1, w, 1, f, code);
      var o2 := CheckResetCode(cfg, w1, f, code);
      var n := 1 + CheckCalls(w.tables, f, code, o2.r.value);
      OneWrite(o2.w, w, n, WriteFlow(flow, f.AfterFailure(), Missed));
      FlowRowOnly(o2.w.tables, ClockAt(w, n + 1), flow, f.AfterFailure(), Missed);
      OneCall(o2.w, w, n);
      var w3 := Draw(o2.w).w;
      ReachedClock(w3, w, n + 1);
      var row := f.AfterVerified(w.next, ClockAt(w, n + 1) + cfg.resetTokenTTL);
      OneWrite(w3, w, n + 1, WriteFlow(flow, row, Verified(w.next)));
      FlowRowOnly(w3.tables, ClockAt(w, n + 2), flow, row, Verified(w.next));
      StillSame(o2.w.tables, Apply(o2.w.tables, ClockAt(w, n + 1), WriteFlow(flow, f.AfterFailure(), Missed)),
                w.tables);
      StillSame(o2.w.tables, Apply(w3.tables, ClockAt(w, n + 2), WriteFlow(flow, row, Verified(w.next))), w.tables);
    }
  }

  lemma EnrolledExist(cfg: Config, w: World)
    requires WorldOk(cfg, [], w)
    ensures forall u | u in w.tables.credentials :: u in w.tables.users
  {
    hide Legal, Replay;
    Structural(cfg, w.tables.log);
  }

  lemma StillSame(s: Tables, s': Tables, r: Tables)
    requires SameAccess(s', s) && SameAccess(s, r)
    ensures SameAccess(s', r)
  {
  }

  // ----- which flow a reset token names -----

  /** Two flows never share a reset token, and a flow that has one belongs to an account and was
      verified. */
  ghost predicate ResetsSound(s: Tables) {
    && (forall a: Id, b: Id, token: Id | HasReset(s.flows, a, token) && HasReset(s.flows, b, token) :: a == b)
    && forall a | a in s.flows && s.flows[a].reset.Some? :: s.flows[a].otpVerified && s.flows[a].user.Some?
  }

  lemma ResetsSoundStep(cfg: Config, s: Tables, at: nat, e: Effect)
    requires ResetBounded(s) && ResetsSound(s) && Enabled(cfg, s, at, e)
    ensures ResetsSound(Apply(s, at, e))
  {
    hide UsersAfter, TokensAfter, CredentialsAfter, ChallengesAfter, MarkersAfter, JobsAfter, Bound;
    var s' := Apply(s, at, e);
    forall a: Id, b: Id, token: Id | HasReset(s'.flows, a, token) && HasReset(s'.flows, b, token)
      ensures a == b
    {
      assert a in s.flows && b in s.flows;
      if HasReset(s.flows, a, token) && HasReset(s.flows, b, token) {
        assert a == b;
      }
    }
  }

  lemma {:induction false} ResetsAlwaysSound(cfg: Config, log: seq<Entry>)
    requires Legal(cfg, log)
    ensures ResetsSound(Replay(log))
  {
    hide Enabled, Apply, ResetsSound;
    if log != [] {
      var n := |log| - 1;
      ResetsAlwaysSound(cfg, log[..n]);
      Structural(cfg, log[..n]);
      ResetsSoundStep(cfg, Replay(log[..n]), log[n].at, log[n].what);
    } else {
      NoResets();
    }
  }

  lemma NoResets()
    ensures ResetsSound(EMPTY)
  {
  }

  lemma ResetFound(cfg: Config, w: World, flow: Id, token: Id)
    requires WorldOk(cfg, [], w) && HasReset(w.tables.flows, flow, token)
    ensures FlowWithReset(w.tables.flows, token, w.tables.top) == Some(flow)
    ensures var f := w.tables.flows[flow];
            f.otpVerified && f.user.Some? && f.user.value in w.tables.users
  {
    hide Legal, Replay, HoldsReset;
    Structural(cfg, w.tables.log);
    ResetsAlwaysSound(cfg, w.tables.log);
    HasToken(w.tables.flows, flow, token);
  }

  lemma HasToken(flows: map<Id, FlowRow>, flow: Id, token: Id)
    requires HasReset(flows, flow, token)
    ensures flows[flow].reset.Some?
  {
  }

  // ----- the confirmation -----

  /** A confirmation succeeds exactly with a reset token that some flow holds, while neither the
      flow nor the token has expired and the flow is not consumed. It stores the new password of
      the flow's account, consumes the flow, revokes the account's tokens and clears its marker.
      Otherwise it changes nothing. */
  lemma ConfirmExactly(cfg: Config, w: World, flow: Id, token: Id, newPassword: string)
    requires WorldOk(cfg, [], w) && NoFaults(w.plan) && HasReset(w.tables.flows, flow, token)
    ensures w.tables.flows[flow].user.Some? && w.tables.flows[flow].user.value in w.tables.users
    ensures var o := ConfirmPasswordReset(w, token, newPassword);
            var s, s' := w.tables, o.w.tables;
            var f, user := s.flows[flow], s.flows[flow].user.value;
            if ClockAt(w, 1) <= f.expiresAt && ClockAt(w, 1) < f.reset.value.expiresAt && !f.consumed then
              && o.r == Ok(Nothing)
              && s'.users == s.users[user := s.users[user].(password := newPassword)]
              && s'.flows == s.flows[flow := f.(consumed := true)]
              && s'.credentials == s.credentials && s'.challenges == s.challenges && s'.jobs == s.jobs
              && Revoked(s.tokens, s'.tokens, user) && s'.markers == s.markers - {user}
            else
              o.r == Err(ResetTokenInvalid) && s' == s
  {
    hide Turn, Write, Apply, NoFaults, Reached, ClockAt, Legal, Replay, FlowWithReset, RevokeAllForUser, EndSession,
         Revoked;
    ResetFound(cfg, w, flow, token);
    LaterReads(w, 0);
    OneCall(w, w, 0);
    var w1 := Turn(w);
    ReachedClock(w1, w, 1);
    OneCall(w1, w, 1);
    var w2 := Turn(w1);
    var f := w.tables.flows[flow];
    var user := f.user.value;
    OneWrite(w2, w, 2, SetPassword(user, newPassword, ByFlow(flow)));
    PasswordRowOnly(w2.tables, ClockAt(w, 3), user, newPassword, ByFlow(flow));
    var o3 := UpdatePassword(w2, user, newPassword, ByFlow(flow));
    OneWrite(o3.w, w, 3, WriteFlow(flow, f.AfterConsumed(), Spent));
    FlowRowOnly(o3.w.tables, ClockAt(w, 4), flow, f.AfterConsumed(), Spent);
    SessionsEnd(UpdateFlow(o3.w, flow, f.AfterConsumed(), Spent).w, w, 4, user);
  }

  /** Under every plan, a reset token that no flow holds is refused and changes no table. */
  lemma UnknownResetRefused(cfg: Config, w: World, token: Id, newPassword: string)
    requires forall flow: Id :: !HasReset(w.tables.flows, flow, token)
    ensures var o := ConfirmPasswordReset(w, token, newPassword); o.r.Err? && o.w.tables == w.tables
  {
    hide UpdatePassword, UpdateFlow, RevokeAllForUser, EndSession;
  }

  // ----- from the request to the new password -----

  lemma EnterRows(w: World, call: Call)
    ensures var s := Enter(w, call).tables;
            && s.users == w.tables.users && s.credentials == w.tables.credentials && s.flows == w.tables.flows
            && Enter(w, call).plan == call.plan
  {
  }

  /** The flow still belongs to the user and is not verified, or the account is gone for good. */
  predicate Pending(s: Tables, flow: Id, user: Id, expiresAt: int) {
    && flow < s.top && user < s.top
    && (flow !in s.flows ==> user !in s.users)
    && (flow in s.flows ==>
          var f := s.flows[flow];
          f.user == Some(user) && f.expiresAt == expiresAt && !f.otpVerified && f.reset.None? && !f.consumed)
  }

  lemma PendingStep(cfg: Config, s: Tables, at: nat, e: Effect, flow: Id, user: Id, expiresAt: int)
    requires Pending(s, flow, user, expiresAt) && Enabled(cfg, s, at, e) && !Verifies(e, flow)
    ensures Pending(Apply(s, at, e), flow, user, expiresAt)
  {
    hide TokensAfter, CredentialsAfter, ChallengesAfter, MarkersAfter, JobsAfter;
  }

  lemma {:induction false} PendingOn(cfg: Config, log: seq<Entry>, i: nat, j: nat, flow: Id, user: Id, expiresAt: int)
    requires Legal(cfg, log) && i <= j <= |log| && Pending(Replay(log[..i]), flow, user, expiresAt)
    requires forall m | i <= m < j :: !Verifies(log[m].what, flow)
    ensures Pending(Replay(log[..j]), flow, user, expiresAt)
    decreases j
  {
    hide Legal, Replay, Enabled, Apply, Pending, Verifies;
    if i < j {
      PendingOn(cfg, log, i, j - 1, flow, user, expiresAt);
      EntryEnabled(cfg, log, j - 1);
      PendingStep(cfg, Replay(log[..j - 1]), log[j - 1].at, log[j - 1].what, flow, user, expiresAt);
    }
  }

  /** No call verifies the flow, and the codes that miss it are fewer than the cap. */
  ghost predicate LeavesOpen(cfg: Config, w: World, calls: seq<Call>, flow: Id) {
    var log := Run(cfg, w, calls).tables.log;
    && (forall m | |w.tables.log| <= m < |log| :: !Verifies(log[m].what, flow))
    && Evaluations(log, flow) < cfg.resetFlowMaxAttempts
  }

  lemma StillPending(cfg: Config, w: World, flow: Id, user: Id, expiresAt: int, calls: seq<Call>)
    requires WorldOk(cfg, [], w) && LeavesOpen(cfg, w, calls, flow)
    requires flow in w.tables.flows && w.tables.flows[flow] == FlowRow(Some(user), expiresAt, false, 0, None, false)
    requires user in Run(cfg, w, calls).tables.users
    ensures WorldOk(cfg, [], Run(cfg, w, calls))
    ensures var s := Run(cfg, w, calls).tables;
            && flow in s.flows && s.flows[flow].otpAttempts < cfg.resetFlowMaxAttempts
            && s.flows[flow] == FlowRow(Some(user), expiresAt, false, s.flows[flow].otpAttempts, None, false)
  {
    hide Legal, Replay, Run, Verifies, Evaluations;
    Rebased(cfg, w);
    Structural(cfg, w.tables.log);
    RunsAreLegal(cfg, [], w, calls);
    RunsAreLegal(cfg, w.tables.log, w, calls);
    var log, i := Run(cfg, w, calls).tables.log, |w.tables.log|;
    assert log[..i] == w.tables.log && log[..|log|] == log;
    PendingOn(cfg, log, i, |log|, flow, user, expiresAt);
    AlwaysCapped(cfg, log, flow);
  }

  /** A flow just opened for an enrolled account waits for its code through any calls that leave it
      open, wrong codes included. */
  lemma FlowOpens(cfg: Config, w: World, flow: Id, user: Id, expiresAt: int, calls: seq<Call>, verify: Call,
                  code: string)
    requires WorldOk(cfg, [], w) && LeavesOpen(cfg, w, calls, flow)
    requires flow in w.tables.flows && w.tables.flows[flow] == FlowRow(Some(user), expiresAt, false, 0, None, false)
    requires user in w.tables.credentials && w.tables.credentials[user].enabled
    requires verify.request == DoVerifyReset(flow, code) && NoFaults(verify.plan)
    requires var v := Enter(Run(cfg, w, calls), verify);
             && ClockAt(v, 1) <= expiresAt && user in v.tables.users && user in v.tables.credentials
             && AcceptedAs(cfg, v.tables.credentials[user], v.tables.users[user].email, code, ClockAt(v, 4)).Some?
    ensures var o := Exec(cfg, Run(cfg, w, calls), verify);
            && WorldOk(cfg, [], o.w) && o.r.Ok? && o.r.value.ResetAllowed?
            && flow in o.w.tables.flows
            && var f := o.w.tables.flows[flow];
            && f.user == Some(user) && f.expiresAt == expiresAt && !f.consumed
            && f.reset == Some(ResetToken(o.r.value.resetToken, o.r.value.expiresAt))
  {
    hide Legal, Replay, Run, LeavesOpen, VerifyPasswordResetOTP, ClockAt, NoFaults, Apply, AcceptedAs, CheckCalls,
         WithCounter, SameAccess;
    var v := Run(cfg, w, calls);
    EnterRows(v, verify);
    StillPending(cfg, w, flow, user, expiresAt, calls);
    StillEnrolled(cfg, w, calls, user);
    EnterOk(cfg, [], v, verify);
    ExecOk(cfg, [], v, verify);
    VerifyResetExactly(cfg, Enter(v, verify), flow, code);
  }

  /** A reset token waits for its confirmation likewise. */
  lemma TokenConfirms(cfg: Config, w: World, flow: Id, user: Id, calls: seq<Call>, confirm: Call, newPassword: string)
    requires WorldOk(cfg, [], w) && flow in w.tables.flows && w.tables.flows[flow].user == Some(user)
    requires w.tables.flows[flow].reset.Some? && !w.tables.flows[flow].consumed
    requires LeavesFlow(cfg, w, calls, flow)
    requires confirm.request == DoConfirmReset(w.tables.flows[flow].reset.value.token, newPassword)
    requires NoFaults(confirm.plan)
    requires var f, v := w.tables.flows[flow], Enter(Run(cfg, w, calls), confirm);
             && ClockAt(v, 1) <= f.expiresAt && ClockAt(v, 1) < f.reset.value.expiresAt && user in v.tables.users
    ensures var o := Exec(cfg, Run(cfg, w, calls), confirm);
            && o.r == Ok(Nothing)
            && user in o.w.tables.users && o.w.tables.users[user].password == newPassword
  {
    hide Legal, Replay, Run, LeavesFlow, ConfirmPasswordReset, ClockAt, NoFaults, Apply, Revoked;
    FlowAfter(cfg, w, calls, flow);
    var v := Run(cfg, w, calls);
    EnterOk(cfg, [], v, confirm);
    EnterRows(v, confirm);
    ConfirmExactly(cfg, Enter(v, confirm), flow, w.tables.flows[flow].reset.value.token, newPassword);
  }

  /** From the request to the new password: an enrolled account that asks for a reset, sends a code
      it accepts and confirms with the token it is answered, has the new password. Before the code
      any calls may come that leave the flow open, wrong codes included; before the confirmation
      any that do not confirm it. */
  lemma RecoveryDelivers(cfg: Config, w: World, user: Id, email: string, before: seq<Call>, verify: Call, code: string,
                         between: seq<Call>, confirm: Call, newPassword: string)
    requires WorldOk(cfg, [], w) && NoFaults(w.plan) && Eligible(w.tables, user, cfg.normalizeEmail(email))
    ensures var o := RequestPasswordReset(cfg, w, email);
            && o.r.Ok? && o.r.value.FlowStarted? && o.r.value.flow in o.w.tables.flows
            && var flow, v := o.r.value.flow, Enter(Run(cfg, o.w, before), verify);
            (&& LeavesOpen(cfg, o.w, before, flow)
             && verify.request == DoVerifyReset(flow, code) && NoFaults(verify.plan)
             && ClockAt(v, 1) <= o.r.value.expiresAt && user in v.tables.users && user in v.tables.credentials
             && AcceptedAs(cfg, v.tables.credentials[user], v.tables.users[user].email, code, ClockAt(v, 4)).Some?
             ==>
               var p := Exec(cfg, Run(cfg, o.w, before), verify);
               && p.r.Ok? && p.r.value.ResetAllowed?
               && var x := Enter(Run(cfg, p.w, between), confirm);
               (&& LeavesFlow(cfg, p.w, between, flow)
                && confirm.request == DoConfirmReset(p.r.value.resetToken, newPassword) && NoFaults(confirm.plan)
                && ClockAt(x, 1) <= o.r.value.expiresAt && ClockAt(x, 1) < p.r.value.expiresAt
                && user in x.tables.users
                ==>
                  var q := Exec(cfg, Run(cfg, p.w, between), confirm);
                  && q.r == Ok(Nothing)
                  && user in q.w.tables.users && q.w.tables.users[user].password == newPassword))
  {
    hide Legal, Replay, Run, LeavesOpen, LeavesFlow, RequestPasswordReset, ClockAt, NoFaults, Exec, Enter, AcceptedAs,
         SameAccess;
    RequestExactly(cfg, w, email);
    RequestPasswordResetOk(cfg, [], w, email);
    var o := RequestPasswordReset(cfg, w, email);
    var flow := o.r.value.flow;
    assert o.w.tables.flows[flow].user == Some(user);
    var v := Enter(Run(cfg, o.w, before), verify);
    if && LeavesOpen(cfg, o.w, before, flow)
       && verify.request == DoVerifyReset(flow, code) && NoFaults(verify.plan)
       && ClockAt(v, 1) <= o.r.value.expiresAt && user in v.tables.users && user in v.tables.credentials
       && AcceptedAs(cfg, v.tables.credentials[user], v.tables.users[user].email, code, ClockAt(v, 4)).Some?
    {
      FlowOpens(cfg, o.w, flow, user, o.r.value.expiresAt, before, verify, code);
      var p := Exec(cfg, Run(cfg, o.w, before), verify);
      var x := Enter(Run(cfg, p.w, between), confirm);
      if && LeavesFlow(cfg, p.w, between, flow)
         && confirm.request == DoConfirmReset(p.r.value.resetToken, newPassword) && NoFaults(confirm.plan)
         && ClockAt(x, 1) <= o.r.value.expiresAt && ClockAt(x, 1) < p.r.value.expiresAt && user in x.tables.users
      {
        TokenConfirms(cfg, p.w, flow, user, between, confirm, newPassword);
      }
    }
  }

  /** After a confirmation that succeeded, the next login of that active account passes with the
      new password and is refused with any other. */
  lemma ConfirmThenLogin(cfg: Config, w: World, flow: Id, token: Id, newPassword: string, login: Call, email: string,
                         password: string)
    requires WorldOk(cfg, [], w) && NoFaults(w.plan) && HasReset(w.tables.flows, flow, token)
    requires ConfirmPasswordReset(w, token, newPassword).r.Ok?
    requires w.tables.flows[flow].user.Some? && IsActive(w.tables, w.tables.flows[flow].user.value)
    requires login.request == DoLogin(email, password) && NoFaults(login.plan)
    requires cfg.normalizeEmail(email) == w.tables.users[w.tables.flows[flow].user.value].email
    ensures var r := Exec(cfg, ConfirmPasswordReset(w, token, newPassword).w, login).r;
            if password == newPassword then r.Ok? else r == Err(InvalidCredentials)
  {
    hide ConfirmPasswordReset, Login, Legal, Replay, ClockAt, Apply, NoFaults, Revoked;
    var o := ConfirmPasswordReset(w, token, newPassword);
    ConfirmExactly(cfg, w, flow, token, newPassword);
    ConfirmPasswordResetOk(cfg, [], w, token, newPassword);
    EnterOk(cfg, [], o.w, login);
    EnterRows(o.w, login);
    LoginExactly(cfg, Enter(o.w, login), w.tables.flows[flow].user.value, email, password);
  }
}
