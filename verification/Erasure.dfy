/** Guesses against a password-reset flow are invisible to the account: erasing them from a
    run changes no other reply and no table but the flows' own attempt counters. */
module Erasure {
  import opened Basics
  import opened Credentials
  import opened ResetFlows
  import opened Store
  import opened Repositories
  import opened AuthSpec
  import Totp

  // ----- worlds that differ in reset attempts only -----

  predicate AlikeFlow(f: FlowRow, g: FlowRow) {
    f.(otpAttempts := 0) == g.(otpAttempts := 0) && f.otpAttempts <= g.otpAttempts
  }

  /** The same tables, except that flows may have recorded fewer attempts in s than in r. */
  predicate Alike(s: Tables, r: Tables) {
    && s.users == r.users && s.tokens == r.tokens && s.credentials == r.credentials
    && s.challenges == r.challenges && s.markers == r.markers && s.jobs == r.jobs && s.top == r.top
    && s.flows.Keys == r.flows.Keys
    && forall f | f in s.flows :: AlikeFlow(s.flows[f], r.flows[f])
  }

  predicate Sim(w: World, v: World) {
    Alike(w.tables, v.tables) && w.clock == v.clock && w.plan == v.plan && w.next == v.next
  }

  predicate Same<T(==)>(o: Out<T>, p: Out<T>) {
    o.r == p.r && Sim(o.w, p.w)
  }

  lemma SimTurn(w: World, v: World)
    requires Sim(w, v)
    ensures Sim(Turn(w), Turn(v)) && Same(Ask(w), Ask(v)) && Same(Draw(w), Draw(v))
    ensures Turn(w).tables == w.tables && Turn(v).tables == v.tables
  {
  }

  lemma SimApply(s: Tables, r: Tables, at: nat, e: Effect)
    requires Alike(s, r) && !e.WriteFlow?
    ensures Alike(Apply(s, at, e), Apply(r, at, e))
  {
  }

  lemma SimWrite(w: World, v: World, e: Effect)
    requires Sim(w, v) && !e.WriteFlow?
    ensures Same(Write(w, e), Write(v, e)) && Sim(Note(w, e), Note(v, e))
  {
    hide Alike, Apply;
    SimApply(w.tables, v.tables, Turn(w).clock, e);
    SimApply(w.tables, v.tables, w.clock, e);
  }

  lemma SimWriteFlow(w: World, v: World, flow: Id, f: FlowRow, g: FlowRow, why: FlowWrite)
    requires Sim(w, v) && AlikeFlow(f, g)
    ensures Same(UpdateFlow(w, flow, f, why), UpdateFlow(v, flow, g, why))
  {
    hide Apply, AlikeFlow;
    SimApplyFlow(w.tables, v.tables, Turn(w).clock, flow, f, g, why);
  }

  lemma SimApplyFlow(s: Tables, r: Tables, at: nat, flow: Id, f: FlowRow, g: FlowRow, why: FlowWrite)
    requires Alike(s, r) && AlikeFlow(f, g)
    ensures Alike(Apply(s, at, WriteFlow(flow, f, why)), Apply(r, at, WriteFlow(flow, g, why)))
  {
    hide AlikeFlow;
  }

  // ----- every use case but the guess itself -----

  lemma SimVerifyOTP(cfg: Config, w: World, v: World, email: string, user: Id, row: CredentialRow, code: string,
                     purpose: Purpose)
    requires Sim(w, v)
    ensures Same(ValidateOTP(cfg, w, email, row, code), ValidateOTP(cfg, v, email, row, code))
    ensures Same(VerifyOTP(cfg, w, email, user, row, code, purpose), VerifyOTP(cfg, v, email, user, row, code, purpose))
  {
    hide Alike, Write, Totp.Matched, Apply;
    SimTurn(w, v);
    var o, p := ValidateOTP(cfg, w, email, row, code), ValidateOTP(cfg, v, email, row, code);
    if o.r.Ok? {
      var row1 := row.AfterSuccess(o.r.value.counter);
      var row2 := row.AfterFailure(cfg.otpMaxAttempts, cfg.otpLockout, o.w.clock);
      SimUpdateCredential(o.w, p.w, user, row1, Passed(o.r.value.counter, o.w.clock, o.r.value.demo, purpose));
      SimUpdateCredential(o.w, p.w, user, row2, Failed(o.w.clock));
    }
  }

  lemma SimUpdateCredential(w: World, v: World, user: Id, row: CredentialRow, why: CredentialWrite)
    requires Sim(w, v)
    ensures Same(UpdateCredential(w, user, row, why), UpdateCredential(v, user, row, why))
    ensures why.Started? ==> Same(CreateCredential(w, user, row, why.token), CreateCredential(v, user, row, why.token))
  {
    hide Write, Apply;
    SimTurn(w, v);
    SimWrite(w, v, WriteCredential(user, row, why));
  }

  lemma SimIssueSession(cfg: Config, w: World, v: World, user: Id)
    requires Sim(w, v)
    ensures Same(IssueSession(cfg, w, user), IssueSession(cfg, v, user))
  {
    hide Write, Draw, Apply, Turn, ActivateAndReturnPrevious;
    SimWrite(w, v, RevokeAll(user));
    var o1, p1 := RevokeAllForUser(w, user), RevokeAllForUser(v, user);
    SimTurn(o1.w, p1.w);
    var o2, p2 := Draw(o1.w), Draw(p1.w);
    if o1.r.Ok? && o2.r.Ok? {
      var token := o2.r.value;
      SimActivate(o2.w, p2.w, user, token, cfg.refreshTTL);
      var o3 := ActivateAndReturnPrevious(o2.w, user, token, cfg.refreshTTL);
      var p3 := ActivateAndReturnPrevious(p2.w, user, token, cfg.refreshTTL);
      var row := RefreshToken(user, o2.w.clock + cfg.refreshTTL, false);
      SimTurn(o3.w, p3.w);
      SimWrite(o3.w, p3.w, AddToken(token, row));
      var o4, p4 := CreateToken(o3.w, token, row), CreateToken(p3.w, token, row);
      SimTurn(o4.w, p4.w);
      if o3.r.Ok? && o3.r.value.Some? {
        SimWrite(o4.w, p4.w, Schedule(user, o3.r.value.value));
        SimTurn(Note(o4.w, Schedule(user, o3.r.value.value)), Note(p4.w, Schedule(user, o3.r.value.value)));
      }
    }
  }

  lemma SimActivate(w: World, v: World, user: Id, token: Id, ttl: int)
    requires Sim(w, v)
    ensures Same(ActivateAndReturnPrevious(w, user, token, ttl), ActivateAndReturnPrevious(v, user, token, ttl))
    ensures Same(DeactivateAndReturnPrevious(w, user), DeactivateAndReturnPrevious(v, user))
  {
    hide Write, Apply;
    SimTurn(w, v);
    SimWrite(w, v, Activate(user, token, Turn(w).clock + ttl));
    SimWrite(w, v, ClearMarker(user));
  }

  lemma SimRotate(cfg: Config, w: World, v: World, user: Id, raw: Id)
    requires Sim(w, v)
    ensures Same(Rotate(cfg, w, user, raw), Rotate(cfg, v, user, raw))
  {
    hide Write, Apply, IssueSession, Turn, Note;
    SimWrite(w, v, RevokeOne(raw));
    SimTurn(w, v);
    var o1, p1 := Revoke(w, raw), Revoke(v, raw);
    if o1.r.Ok? {
      SimIssueSession(cfg, o1.w, p1.w, user);
      var o2, p2 := IssueSession(cfg, o1.w, user), IssueSession(cfg, p1.w, user);
      if o2.r.Ok? {
        SimWrite(o2.w, p2.w, Deliver(o2.r.value.token, user, ViaRefresh(raw)));
      }
    }
  }

  lemma SimRefresh(cfg: Config, w: World, v: World, raw: Id)
    requires Sim(w, v)
    ensures Same(Refresh(cfg, w, raw), Refresh(cfg, v, raw))
  {
    hide Write, Apply, Rotate, Turn;
    SimTurn(w, v);
    var o1, p1 := GetToken(w, raw), GetToken(v, raw);
    if o1.r.Ok? {
      var rt := o1.r.value;
      SimWrite(o1.w, p1.w, RevokeAll(rt.user));
      SimTurn(o1.w, p1.w);
      var o2, p2 := GetUser(o1.w, rt.user), GetUser(p1.w, rt.user);
      SimWrite(o2.w, p2.w, RevokeAll(rt.user));
      SimRotate(cfg, o2.w, p2.w, rt.user, raw);
    }
  }

  lemma SimLogout(w: World, v: World, raw: Id)
    requires Sim(w, v)
    ensures Same(Logout(w, raw), Logout(v, raw))
  {
    hide Write, Apply, Turn, Note;
    SimTurn(w, v);
    var o1, p1 := GetToken(w, raw), GetToken(v, raw);
    if o1.r.Ok? {
      var user := o1.r.value.user;
      SimTurn(o1.w, p1.w);
      SimWrite(o1.w, p1.w, RevokeOne(raw));
      var o2, p2 := Revoke(o1.w, raw), Revoke(p1.w, raw);
      SimWrite(o2.w, p2.w, ClearMarkerIf(user, raw));
      var o3, p3 := DeactivateIfCurrent(o2.w, user, raw), DeactivateIfCurrent(p2.w, user, raw);
      SimWrite(o3.w, p3.w, Schedule(user, raw));
    }
  }

  lemma SimBeginTOTPSetup(cfg: Config, w: World, v: World, user: Id)
    requires Sim(w, v)
    ensures Same(BeginTOTPSetup(cfg, w, user), BeginTOTPSetup(cfg, v, user))
  {
    hide Alike, Apply, Turn, UpdateCredential, CreateCredential, Draw;
    SimTurn(w, v);
    var o1, p1 := Draw(w), Draw(v);
    if o1.r.Ok? {
      SimTurn(o1.w, p1.w);
      var o2, p2 := Ask(o1.w), Ask(p1.w);
      SimTurn(o2.w, p2.w);
      var o3, p3 := Draw(o2.w), Draw(p2.w);
      if o3.r.Ok? {
        SimTurn(o3.w, p3.w);
        SimStart(cfg, o3.w, p3.w, user, o1.r.value, o3.r.value);
      }
    }
  }

  lemma SimStart(cfg: Config, w: World, v: World, user: Id, secret: Id, token: Id)
    requires Sim(w, v)
    ensures var o, p := GetCredential(w, user), GetCredential(v, user);
            var expiresAt := o.w.clock + cfg.setupTokenTTL;
            && Same(o, p)
            && Same(CreateCredential(o.w, user, Credentials.NewRow(secret, token, expiresAt), token),
                    CreateCredential(p.w, user, Credentials.NewRow(secret, token, expiresAt), token))
            && (o.r.Ok? ==>
                  Same(UpdateCredential(o.w, user, o.r.value.Restarted(secret, token, expiresAt), Started(token)),
                       UpdateCredential(p.w, user, o.r.value.Restarted(secret, token, expiresAt), Started(token))))
  {
    hide Apply, Turn, UpdateCredential, CreateCredential;
    SimTurn(w, v);
    var o, p := GetCredential(w, user), GetCredential(v, user);
    var expiresAt := o.w.clock + cfg.setupTokenTTL;
    SimUpdateCredential(o.w, p.w, user, Credentials.NewRow(secret, token, expiresAt), Started(token));
    if o.r.Ok? {
      SimUpdateCredential(o.w, p.w, user, o.r.value.Restarted(secret, token, expiresAt), Started(token));
    }
  }

  lemma SimRegister(cfg: Config, w: World, v: World, email: string, password: string)
    requires Sim(w, v)
    ensures Same(Register(cfg, w, email, password), Register(cfg, v, email, password))
  {
    hide Write, Apply, Turn, BeginTOTPSetup;
    SimTurn(w, v);
    var o1, p1 := Ask(w), Ask(v);
    var user := o1.w.next;
    var w2, v2 := o1.w.(next := user + 1), p1.w.(next := user + 1);
    SimTurn(w2, v2);
    SimWrite(w2, v2, AddUser(user, cfg.normalizeEmail(email), password));
    var o3, p3 := CreateUser(w2, user, cfg.normalizeEmail(email), password),
          CreateUser(v2, user, cfg.normalizeEmail(email), password);
    SimBeginTOTPSetup(cfg, o3.w, p3.w, user);
  }

  lemma SimLogin(cfg: Config, w: World, v: World, email: string, password: string)
    requires Sim(w, v)
    ensures Same(Login(cfg, w, email, password), Login(cfg, v, email, password))
  {
    hide Write, Apply, Turn, BeginTOTPSetup, UserWithEmail, Draw;
    SimTurn(w, v);
    var o1, p1 := GetUserByEmail(w, cfg.normalizeEmail(email)), GetUserByEmail(v, cfg.normalizeEmail(email));
    if o1.r.Ok? {
      var user := o1.r.value;
      SimTurn(o1.w, p1.w);
      var o2, p2 := GetCredential(o1.w, user), GetCredential(p1.w, user);
      SimBeginTOTPSetup(cfg, o2.w, p2.w, user);
      SimTurn(o2.w, p2.w);
      var o3, p3 := Draw(o2.w), Draw(p2.w);
      SimTurn(o3.w, p3.w);
      if o3.r.Ok? {
        SimWrite(o3.w, p3.w, AddChallenge(o3.r.value, LoginChallenge(user, o3.w.clock + cfg.loginChallengeTTL, false)));
      }
    }
  }

  lemma SimSetupVerify(cfg: Config, w: World, v: World, token: Id, code: string)
    requires Sim(w, v)
    ensures Same(SetupVerifyOTP(cfg, w, token, code), SetupVerifyOTP(cfg, v, token, code))
  {
    hide Apply, Turn, VerifyOTP, Enrol;
    SimTurn(w, v);
    var o1, p1 := GetBySetupToken(w, token), GetBySetupToken(v, token);
    if o1.r.Ok? {
      var user := o1.r.value;
      SimTurn(o1.w, p1.w);
      var o2, p2 := GetUser(o1.w, user), GetUser(p1.w, user);
      if o2.r.Ok? {
        var row := o1.w.tables.credentials[user];
        SimVerifyOTP(cfg, o2.w, p2.w, o2.r.value.email, user, row, code, ForSetup);
        var o3 := VerifyOTP(cfg, o2.w, o2.r.value.email, user, row, code, ForSetup);
        var p3 := VerifyOTP(cfg, p2.w, o2.r.value.email, user, row, code, ForSetup);
        if o3.r.Ok? {
          SimEnrol(cfg, o3.w, p3.w, user, o3.r.value, token);
        }
      }
    }
  }

  lemma SimEnrol(cfg: Config, w: World, v: World, user: Id, row: CredentialRow, token: Id)
    requires Sim(w, v)
    ensures Same(Enrol(cfg, w, user, row, token), Enrol(cfg, v, user, row, token))
  {
    hide Apply, IssueSession, UpdateCredential, Note, Alike;
    SimIssueSession(cfg, w, v, user);
    var o1, p1 := IssueSession(cfg, w, user), IssueSession(cfg, v, user);
    SimUpdateCredential(o1.w, p1.w, user, row.AsEnabled(), Enrolled(token));
    var o2 := UpdateCredential(o1.w, user, row.AsEnabled(), Enrolled(token));
    var p2 := UpdateCredential(p1.w, user, row.AsEnabled(), Enrolled(token));
    if o1.r.Ok? {
      SimWrite(o2.w, p2.w, Deliver(o1.r.value.token, user, ViaSetup(token)));
    }
  }

  lemma SimLoginVerify(cfg: Config, w: World, v: World, challenge: Id, code: string)
    requires Sim(w, v)
    ensures Same(LoginVerifyOTP(cfg, w, challenge, code), LoginVerifyOTP(cfg, v, challenge, code))
  {
    hide Apply, Turn, VerifyOTP, Admit;
    SimTurn(w, v);
    var o1, p1 := GetChallenge(w, challenge), GetChallenge(v, challenge);
    if o1.r.Ok? {
      var user := o1.r.value.user;
      SimTurn(o1.w, p1.w);
      var o2, p2 := GetCredential(o1.w, user), GetCredential(p1.w, user);
      SimTurn(o2.w, p2.w);
      var o3, p3 := GetUser(o2.w, user), GetUser(p2.w, user);
      if o2.r.Ok? && o3.r.Ok? {
        SimVerifyOTP(cfg, o3.w, p3.w, o3.r.value.email, user, o2.r.value, code, ForLogin);
        var o4 := VerifyOTP(cfg, o3.w, o3.r.value.email, user, o2.r.value, code, ForLogin);
        var p4 := VerifyOTP(cfg, p3.w, o3.r.value.email, user, o2.r.value, code, ForLogin);
        SimAdmit(cfg, o4.w, p4.w, user, challenge);
      }
    }
  }

  lemma SimAdmit(cfg: Config, w: World, v: World, user: Id, challenge: Id)
    requires Sim(w, v)
    ensures Same(Admit(cfg, w, user, challenge), Admit(cfg, v, user, challenge))
  {
    hide Apply, IssueSession, Write, Note, Turn;
    SimIssueSession(cfg, w, v, user);
    var o1, p1 := IssueSession(cfg, w, user), IssueSession(cfg, v, user);
    SimTurn(o1.w, p1.w);
    SimWrite(o1.w, p1.w, Consume(challenge));
    var o2, p2 := ConsumeChallenge(o1.w, challenge), ConsumeChallenge(p1.w, challenge);
    if o1.r.Ok? {
      SimWrite(o2.w, p2.w, Deliver(o1.r.value.token, user, ViaChallenge(challenge)));
    }
  }

  lemma SimEndSession(w: World, v: World, user: Id)
    requires Sim(w, v)
    ensures Same(EndSession(w, user), EndSession(v, user))
  {
    hide Apply, DeactivateAndReturnPrevious, Note;
    SimActivate(w, v, user, 0, 0);
    var o, p := DeactivateAndReturnPrevious(w, user), DeactivateAndReturnPrevious(v, user);
    if o.r.Ok? && o.r.value.Some? {
      SimWrite(o.w, p.w, Schedule(user, o.r.value.value));
    }
  }

  lemma SimChangePassword(cfg: Config, w: World, v: World, user: Id, current: string, code: string, newPassword: string)
    requires Sim(w, v)
    ensures Same(ChangePassword(cfg, w, user, current, code, newPassword),
                 ChangePassword(cfg, v, user, current, code, newPassword))
  {
    hide Apply, Turn, VerifyOTP, EndSession, Write;
    SimTurn(w, v);
    var o1, p1 := GetUser(w, user), GetUser(v, user);
    SimTurn(o1.w, p1.w);
    var o2, p2 := GetCredential(o1.w, user), GetCredential(p1.w, user);
    if o1.r.Ok? && o2.r.Ok? {
      SimVerifyOTP(cfg, o2.w, p2.w, o1.r.value.email, user, o2.r.value, code, ForPasswordChange);
      var o3 := VerifyOTP(cfg, o2.w, o1.r.value.email, user, o2.r.value, code, ForPasswordChange);
      var p3 := VerifyOTP(cfg, p2.w, o1.r.value.email, user, o2.r.value, code, ForPasswordChange);
      SimTurn(o3.w, p3.w);
      var o4, p4 := Ask(o3.w), Ask(p3.w);
      SimResetPassword(o4.w, p4.w, user, newPassword, ByOwner);
      var o5, p5 := UpdatePassword(o4.w, user, newPassword, ByOwner), UpdatePassword(p4.w, user, newPassword, ByOwner);
      SimWrite(o5.w, p5.w, RevokeAll(user));
      SimEndSession(RevokeAllForUser(o5.w, user).w, RevokeAllForUser(p5.w, user).w, user);
    }
  }

  lemma SimResetPassword(w: World, v: World, user: Id, newPassword: string, origin: PasswordChange)
    requires Sim(w, v)
    ensures Same(UpdatePassword(w, user, newPassword, origin), UpdatePassword(v, user, newPassword, origin))
  {
    hide Apply, Write, Turn;
    SimTurn(w, v);
    SimWrite(w, v, SetPassword(user, newPassword, origin));
  }

  lemma SimDeleteAccount(cfg: Config, w: World, v: World, user: Id, code: string)
    requires Sim(w, v)
    ensures Same(DeleteAccount(cfg, w, user, code), DeleteAccount(cfg, v, user, code))
  {
    hide Apply, Turn, VerifyOTP, Write;
    SimTurn(w, v);
    var o1, p1 := GetUser(w, user), GetUser(v, user);
    SimTurn(o1.w, p1.w);
    var o2, p2 := GetCredential(o1.w, user), GetCredential(p1.w, user);
    if o1.r.Ok? && o2.r.Ok? {
      SimVerifyOTP(cfg, o2.w, p2.w, o1.r.value.email, user, o2.r.value, code, ForDeletion);
      var o3 := VerifyOTP(cfg, o2.w, o1.r.value.email, user, o2.r.value, code, ForDeletion);
      var p3 := VerifyOTP(cfg, p2.w, o1.r.value.email, user, o2.r.value, code, ForDeletion);
      SimTurn(o3.w, p3.w);
      SimWrite(o3.w, p3.w, AskDeletion(user));
      var o4, p4 := RequestDeletion(o3.w, user), RequestDeletion(p3.w, user);
      SimWrite(o4.w, p4.w, RevokeAll(user));
      var o5, p5 := RevokeAllForUser(o4.w, user), RevokeAllForUser(p4.w, user);
      SimWrite(o5.w, p5.w, ClearMarker(user));
    }
  }

  lemma SimRequestReset(cfg: Config, w: World, v: World, email: string)
    requires Sim(w, v)
    ensures Same(RequestPasswordReset(cfg, w, email), RequestPasswordReset(cfg, v, email))
  {
    hide Apply, Turn, StartFlow, UserWithEmail;
    SimTurn(w, v);
    var o1, p1 := GetUserByEmail(w, cfg.normalizeEmail(email)), GetUserByEmail(v, cfg.normalizeEmail(email));
    SimStartFlow(cfg, o1.w, p1.w, None);
    if o1.r.Ok? {
      var user := o1.r.value;
      SimTurn(o1.w, p1.w);
      var o2, p2 := GetCredential(o1.w, user), GetCredential(p1.w, user);
      SimStartFlow(cfg, o2.w, p2.w, None);
      SimStartFlow(cfg, o2.w, p2.w, Some(user));
    }
  }

  lemma SimStartFlow(cfg: Config, w: World, v: World, user: Option<Id>)
    requires Sim(w, v)
    ensures Same(StartFlow(cfg, w, user), StartFlow(cfg, v, user))
  {
    hide Apply, Turn, Write, Draw;
    SimTurn(w, v);
    var o1, p1 := Draw(w), Draw(v);
    SimTurn(o1.w, p1.w);
    if o1.r.Ok? {
      SimWrite(o1.w, p1.w, AddFlow(o1.r.value, ResetFlows.NewRow(user, o1.w.clock + cfg.resetFlowTTL)));
    }
  }

  lemma SimFlowWithReset(s: Tables, r: Tables, token: Id, bound: Id)
    requires Alike(s, r)
    ensures FlowWithReset(s.flows, token, bound) == FlowWithReset(r.flows, token, bound)
  {
    assert forall f: Id | HasReset(s.flows, f, token) :: HasReset(r.flows, f, token);
    assert forall f: Id | HasReset(r.flows, f, token) :: HasReset(s.flows, f, token);
    var a, b := FlowWithReset(s.flows, token, bound), FlowWithReset(r.flows, token, bound);
    if a.Some? {
      assert HasReset(s.flows, a.value, token);
    }
    if b.Some? {
      assert HasReset(r.flows, b.value, token);
    }
  }

  lemma SimConfirmReset(w: World, v: World, token: Id, newPassword: string)
    requires Sim(w, v)
    ensures Same(ConfirmPasswordReset(w, token, newPassword), ConfirmPasswordReset(v, token, newPassword))
  {
    hide Apply, Turn, EndSession, UpdateFlow, UpdatePassword, RevokeAllForUser;
    SimFlowWithReset(w.tables, v.tables, token, w.tables.top);
    SimTurn(w, v);
    var o1, p1 := GetByResetToken(w, token), GetByResetToken(v, token);
    if o1.r.Ok? {
      var flow := o1.r.value;
      var f, g := o1.w.tables.flows[flow], p1.w.tables.flows[flow];
      assert AlikeFlow(f, g);
      SimTurn(o1.w, p1.w);
      var o2, p2 := Ask(o1.w), Ask(p1.w);
      if f.user.Some? {
        SimSpend(o2.w, p2.w, flow, f, g, f.user.value, newPassword);
      }
    }
  }

  lemma SimSpend(w: World, v: World, flow: Id, f: FlowRow, g: FlowRow, user: Id, newPassword: string)
    requires Sim(w, v) && AlikeFlow(f, g)
    ensures var o3, p3 := UpdatePassword(w, user, newPassword, ByFlow(flow)),
            UpdatePassword(v, user, newPassword, ByFlow(flow));
            var o4, p4 := UpdateFlow(o3.w, flow, f.AfterConsumed(), Spent),
                  UpdateFlow(p3.w, flow, g.AfterConsumed(), Spent);
            var o5, p5 := RevokeAllForUser(o4.w, user), RevokeAllForUser(p4.w, user);
            Same(o3, p3) && Same(o4, p4) && Same(o5, p5) && Same(EndSession(o5.w, user), EndSession(p5.w, user))
  {
    hide Apply, Turn, EndSession, UpdateFlow, UpdatePassword, Write, Alike;
    SimResetPassword(w, v, user, newPassword, ByFlow(flow));
    var o3, p3 := UpdatePassword(w, user, newPassword, ByFlow(flow)),
          UpdatePassword(v, user, newPassword, ByFlow(flow));
    SimWriteFlow(o3.w, p3.w, flow, f.AfterConsumed(), g.AfterConsumed(), Spent);
    var o4, p4 := UpdateFlow(o3.w, flow, f.AfterConsumed(), Spent), UpdateFlow(p3.w, flow, g.AfterConsumed(), Spent);
    SimWrite(o4.w, p4.w, RevokeAll(user));
    SimEndSession(RevokeAllForUser(o4.w, user).w, RevokeAllForUser(p4.w, user).w, user);
  }

  lemma SimWorkerDelete(w: World, v: World, user: Id)
    requires Sim(w, v)
    ensures Same(WorkerDelete(w, user), WorkerDelete(v, user))
  {
    hide Apply, Write;
    SimWrite(w, v, DropUser(user));
  }

  // ----- the guess -----

  predicate IsGuess(r: Reply<Result>) {
    r == Err(OtpInvalid) || r == Err(OtpLocked) || r == Err(FlowInvalid)
  }

  lemma SimCheckResetCode(cfg: Config, w: World, v: World, f: FlowRow, g: FlowRow, code: string)
    requires Sim(w, v) && AlikeFlow(f, g)
    ensures Same(CheckResetCode(cfg, w, f, code), CheckResetCode(cfg, v, g, code))
  {
    hide Apply, Turn, ValidateOTP, UpdateCredential;
    SimTurn(w, v);
    if f.user.Some? {
      var user := f.user.value;
      var o1, p1 := GetCredential(w, user), GetCredential(v, user);
      SimTurn(o1.w, p1.w);
      var o2, p2 := GetUser(o1.w, user), GetUser(p1.w, user);
      if o1.r.Ok? && o2.r.Ok? {
        var row := o1.r.value;
        SimVerifyOTP(cfg, o2.w, p2.w, o2.r.value.email, user, row, code, ForLogin);
        var o3 := ValidateOTP(cfg, o2.w, o2.r.value.email, row, code);
        var p3 := ValidateOTP(cfg, p2.w, o2.r.value.email, row, code);
        if o3.r.Ok? {
          SimUpdateCredential(o3.w, p3.w, user, row.WithCodeUsed(o3.r.value.counter),
                              UsedByReset(o3.r.value.counter, o3.w.clock));
        }
      }
    }
  }

  /** A verification that is not a guess answers the same whatever failures the flow has
      recorded before. */
  lemma SimVerifyReset(cfg: Config, w: World, v: World, flow: Id, code: string)
    requires Sim(w, v) && !IsGuess(VerifyPasswordResetOTP(cfg, v, flow, code).r)
    ensures Same(VerifyPasswordResetOTP(cfg, w, flow, code), VerifyPasswordResetOTP(cfg, v, flow, code))
  {
    hide Apply, Turn, CheckResetCode, UpdateFlow, Draw;
    SimTurn(w, v);
    var o1, p1 := GetFlow(w, flow), GetFlow(v, flow);
    if o1.r.Ok? && p1.r.Ok? {
      var f, g := o1.r.value, p1.r.value;
      SimCheckResetCode(cfg, o1.w, p1.w, f, g, code);
      var o2, p2 := CheckResetCode(cfg, o1.w, f, code), CheckResetCode(cfg, p1.w, g, code);
      SimWriteFlow(o2.w, p2.w, flow, f.AfterFailure(), g.AfterFailure(), Missed);
      SimTurn(o2.w, p2.w);
      var o3, p3 := Draw(o2.w), Draw(p2.w);
      if o3.r.Ok? {
        var expiresAt := o3.w.clock + cfg.resetTokenTTL;
        SimWriteFlow(o3.w, p3.w, flow, f.AfterVerified(o3.r.value, expiresAt), g.AfterVerified(o3.r.value, expiresAt),
                     Verified(o3.r.value));
      }
    }
  }

  /** What one table set keeps of another through a guess: everything but one attempt. */
  lemma GuessLeaves(cfg: Config, s: Tables, v: World, flow: Id, code: string)
    requires Alike(s, v.tables) && IsGuess(VerifyPasswordResetOTP(cfg, v, flow, code).r)
    ensures var o := VerifyPasswordResetOTP(cfg, v, flow, code);
            Alike(s, o.w.tables) && o.w.next == v.next && v.clock <= o.w.clock
  {
    hide CheckResetCode, Alike, Write, Apply, Draw;
    var p1 := GetFlow(v, flow);
    if p1.r.Ok? {
      var g := p1.r.value;
      CheckLeaves(cfg, p1.w, g, code);
      var p2 := CheckResetCode(cfg, p1.w, g, code);
      if p2.r == Ok(false) {
        MissLeaves(s, p2.w, flow, g);
      }
      VerifiedIsNoGuess(cfg, p2.w, flow, g);
    }
  }

  lemma VerifiedIsNoGuess(cfg: Config, w: World, flow: Id, g: FlowRow)
    ensures var o3 := Draw(w);
            && (o3.r.Err? ==> o3.r.error == Infra)
            && (o3.r.Ok? ==>
                  var o4 := UpdateFlow(o3.w, flow, g.AfterVerified(o3.r.value, o3.w.clock + cfg.resetTokenTTL),
                                       Verified(o3.r.value));
                  o4.r.Err? ==> o4.r.error == Infra || o4.r.error == NotFound)
  {
    hide Apply;
  }

  lemma CheckLeaves(cfg: Config, w: World, g: FlowRow, code: string)
    ensures var o := CheckResetCode(cfg, w, g, code);
            && o.w.next == w.next && w.clock <= o.w.clock
            && (o.r == Ok(false) ==> o.w.tables == w.tables)
            && (o.r.Err? ==> o.r.error == Infra || o.r.error == NotFound)
  {
    hide Apply, ValidateOTP;
    if g.user.Some? {
      var cred := GetCredential(w, g.user.value);
      if cred.r.Ok? {
        var o1 := GetUser(cred.w, g.user.value);
        if o1.r.Ok? {
          ValidateLeaves(cfg, o1.w, o1.r.value.email, cred.r.value, code);
        }
      }
    }
  }

  lemma ValidateLeaves(cfg: Config, w: World, email: string, row: CredentialRow, code: string)
    ensures var o := ValidateOTP(cfg, w, email, row, code);
            && o.w.next == w.next && w.clock <= o.w.clock && o.w.tables == w.tables
            && (o.r.Err? ==> o.r.error == Infra)
  {
    hide Totp.Matched;
  }

  lemma MissLeaves(s: Tables, w: World, flow: Id, g: FlowRow)
    requires Alike(s, w.tables) && flow in w.tables.flows && w.tables.flows[flow] == g
    ensures var o := UpdateFlow(w, flow, g.AfterFailure(), Missed);
            && Alike(s, o.w.tables) && o.w.next == w.next && w.clock <= o.w.clock
            && (o.r.Err? ==> o.r.error == Infra)
  {
    hide AlikeFlow;
    OneMore(s, w.tables, flow, g);
  }

  lemma OneMore(s: Tables, r: Tables, flow: Id, g: FlowRow)
    requires Alike(s, r) && flow in r.flows && r.flows[flow] == g
    ensures AlikeFlow(s.flows[flow], g.AfterFailure())
  {
  }

  // ----- runs -----

  /** A call answered the same way from two alike worlds. */
  lemma SimPerform(cfg: Config, w: World, v: World, request: Request)
    requires Sim(w, v)
    requires !(request.DoVerifyReset? && IsGuess(Perform(cfg, v, request).r))
    ensures Same(Perform(cfg, w, request), Perform(cfg, v, request))
  {
    hide Sim, Register, Login, Refresh, Logout, DeleteAccount, SetupVerifyOTP, LoginVerifyOTP, ChangePassword,
         RequestPasswordReset, VerifyPasswordResetOTP, ConfirmPasswordReset, WorkerDelete;
    match request
    case DoRegister(email, password) => SimRegister(cfg, w, v, email, password);
    case DoLogin(email, password) => SimLogin(cfg, w, v, email, password);
    case DoRefresh(raw) => SimRefresh(cfg, w, v, raw);
    case DoLogout(raw) => SimLogout(w, v, raw);
    case DoDelete(user, code) => SimDeleteAccount(cfg, w, v, user, code);
    case DoSetupVerify(token, code) => SimSetupVerify(cfg, w, v, token, code);
    case DoLoginVerify(challenge, code) => SimLoginVerify(cfg, w, v, challenge, code);
    case DoChangePassword(user, current, code, newPassword) =>
      SimChangePassword(cfg, w, v, user, current, code, newPassword);
    case DoRequestReset(email) => SimRequestReset(cfg, w, v, email);
    case DoVerifyReset(flow, code) => SimVerifyReset(cfg, w, v, flow, code);
    case DoConfirmReset(token, newPassword) => SimConfirmReset(w, v, token, newPassword);
    case WorkerDeletes(user) => SimWorkerDelete(w, v, user);
  }

  /** The call is a guess: a verification of a reset code that this run answers with
      OTP-invalid, OTP-locked or flow-invalid. */
  predicate Guesses(cfg: Config, w: World, call: Call) {
    call.request.DoVerifyReset? && IsGuess(Exec(cfg, w, call).r)
  }

  /** The call, asked for at the moment it really began: a call that arrives while another is
      being answered waits for it. */
  function Began(w: World, call: Call): Call {
    call.(at := Max(w.clock, call.at))
  }

  /** The calls of the run that are not guesses, each at the moment it began. */
  function Erased(cfg: Config, w: World, calls: seq<Call>): seq<Call>
    decreases |calls|
  {
    if calls == [] then []
    else
      var rest := Erased(cfg, Exec(cfg, w, calls[0]).w, calls[1..]);
      if Guesses(cfg, w, calls[0]) then rest else [Began(w, calls[0])] + rest
  }

  /** The replies of the run to the calls that are not guesses. */
  function OtherReplies(cfg: Config, w: World, calls: seq<Call>): seq<Reply<Result>>
    decreases |calls|
  {
    if calls == [] then []
    else
      var o := Exec(cfg, w, calls[0]);
      var rest := OtherReplies(cfg, o.w, calls[1..]);
      if Guesses(cfg, w, calls[0]) then rest else [o.r] + rest
  }

  function Replies(cfg: Config, w: World, calls: seq<Call>): seq<Reply<Result>>
    decreases |calls|
  {
    if calls == [] then []
    else
      var o := Exec(cfg, w, calls[0]);
      [o.r] + Replies(cfg, o.w, calls[1..])
  }

  /** A world alike another, and not later. */
  predicate Behind(w: World, v: World) {
    Alike(w.tables, v.tables) && w.next == v.next && w.clock <= v.clock
  }

  lemma EnterAlike(w: World, v: World, call: Call)
    requires Behind(w, v)
    ensures Sim(Enter(w, Began(v, call)), Enter(v, call))
  {
    hide Apply;
    SimApply(w.tables, v.tables, Max(v.clock, call.at), Begin);
  }

  lemma GuessStaysBehind(cfg: Config, w: World, v: World, call: Call)
    requires Behind(w, v) && Guesses(cfg, v, call)
    ensures Behind(w, Exec(cfg, v, call).w)
  {
    hide VerifyPasswordResetOTP, AlikeFlow;
    var v1 := Enter(v, call);
    assert Alike(w.tables, v1.tables);
    GuessLeaves(cfg, w.tables, v1, call.request.flow, call.request.code);
  }

  /** Erasing every guess from a run, while every other call begins when it did, leaves all
      users, credentials, tokens, markers, challenges and jobs as they were, and every
      remaining reply unchanged. */
  lemma {:induction false} GuessesAreInvisible(cfg: Config, w: World, v: World, calls: seq<Call>)
    requires Behind(w, v)
    ensures var kept := Erased(cfg, v, calls);
            && Behind(Run(cfg, w, kept), Run(cfg, v, calls))
            && Replies(cfg, w, kept) == OtherReplies(cfg, v, calls)
    decreases |calls|
  {
    hide Perform, Enter, Alike, Guesses;
    if calls != [] {
      var call, rest := calls[0], calls[1..];
      var v1 := Exec(cfg, v, call).w;
      if Guesses(cfg, v, call) {
        GuessStaysBehind(cfg, w, v, call);
        GuessesAreInvisible(cfg, w, v1, rest);
      } else {
        KeptCall(cfg, w, v, call);
        var w1 := Exec(cfg, w, Began(v, call)).w;
        GuessesAreInvisible(cfg, w1, v1, rest);
        var keptRest := Erased(cfg, v1, rest);
        assert Erased(cfg, v, calls) == [Began(v, call)] + keptRest;
        assert ([Began(v, call)] + keptRest)[1..] == keptRest;
      }
    }
  }

  lemma KeptCall(cfg: Config, w: World, v: World, call: Call)
    requires Behind(w, v) && !Guesses(cfg, v, call)
    ensures Exec(cfg, w, Began(v, call)).r == Exec(cfg, v, call).r
    ensures Behind(Exec(cfg, w, Began(v, call)).w, Exec(cfg, v, call).w)
  {
    hide Perform, Enter, Alike;
    EnterAlike(w, v, call);
    SimPerform(cfg, Enter(w, Began(v, call)), Enter(v, call), call.request);
  }
}
