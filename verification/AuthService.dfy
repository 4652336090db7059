/** The authentication service as the program writes it: requests that load rows into
    objects, change them in place, write them back and call one port after another. Each
    use case is proved equal to its function in AuthSpec, in its reply and in the whole state
    it leaves behind, for every plan of port answers; so what is proved of runs of those
    functions holds of runs of these methods. */
module AuthService {
  import opened Basics
  import opened Credentials
  import opened ResetFlows
  import opened Store
  import opened Backends
  import opened AuthSpec
  import Repositories
  import Totp

  class Service {
    const cfg: Config
    const backend: Backend

    constructor (cfg: Config, backend: Backend)
      ensures this.cfg == cfg && this.backend == backend
    {
      this.cfg := cfg;
      this.backend := backend;
    }

    // ----- the OTP gate -----

    method ValidateOTP(email: string, credential: Credential, code: string) returns (r: Reply<Verdict>)
      modifies backend
      ensures Out(backend.State(), r) == AuthSpec.ValidateOTP(cfg, old(backend.State()), email, credential.Row(), code)
    {
      if email == DEMO_EMAIL && code == DEMO_CODE {
        return Ok(Verdict(true, 0, true));
      }
      var _ :- backend.Ask();
      var ok, counter := Totp.ValidateAt(cfg.hotp, code, credential.secret, backend.clock);
      return Ok(Verdict(ok, counter, false));
    }

    /** Leaves the credential as written. */
    method VerifyOTP(email: string, credential: Credential, code: string, ghost purpose: Purpose) returns (r: Reply<()>)
      modifies backend, credential
      ensures Out(backend.State(), if r.Ok? then Ok(credential.Row()) else Err(r.error))
              == AuthSpec.VerifyOTP(cfg, old(backend.State()), email, credential.userId, old(credential.Row()), code,
                                    purpose)
    {
      hide Repositories.UpdateCredential, AuthSpec.ValidateOTP;
      if credential.Row().IsLocked(backend.clock) {
        return Err(OtpLocked);
      }
      var v :- ValidateOTP(email, credential, code);
      var ok := v.ok;
      if ok && !v.demo && credential.Row().IsCodeConsumed(v.counter) {
        ok := false;
      }
      if !ok {
        credential.RecordFailure(cfg.otpMaxAttempts, cfg.otpLockout, backend.clock);
        var _ :- backend.UpdateCredential(credential, Failed(backend.clock), 0);
        return Err(if credential.Row().IsLocked(backend.clock) then OtpLocked else OtpInvalid);
      }
      credential.RecordSuccess(v.counter);
      r := backend.UpdateCredential(credential, Passed(v.counter, backend.clock, v.demo, purpose), 0);
    }

    // ----- sessions -----

    method IssueSession(user: Id) returns (r: Reply<Result>)
      modifies backend
      ensures Out(backend.State(), r) == AuthSpec.IssueSession(cfg, old(backend.State()), user)
    {
      hide Repositories.RevokeAllForUser, Store.Draw, Repositories.ActivateAndReturnPrevious, Repositories.CreateToken,
           Store.Note, Store.Ask;
      var _ :- backend.RevokeAllForUser(user);
      var token :- backend.Draw();
      var expiresAt := backend.clock + cfg.refreshTTL;
      var previous :- backend.ActivateAndReturnPrevious(user, token, cfg.refreshTTL);
      var _ :- backend.CreateToken(token, RefreshToken(user, expiresAt, false));
      if previous.Some? {
        backend.Note(Schedule(user, previous.value));
      }
      var _ :- backend.Ask();
      return Ok(Session(user, token, expiresAt));
    }

    /** Rotates the presented token; a revoked one kills its user's whole family. */
    method Refresh(raw: Id) returns (r: Reply<Result>)
      modifies backend
      ensures Out(backend.State(), r) == AuthSpec.Refresh(cfg, old(backend.State()), raw)
    {
      hide Repositories.GetToken, Repositories.RevokeAllForUser, Repositories.GetUser, Repositories.Revoke,
           AuthSpec.IssueSession, Store.Note;
      var found := backend.GetToken(raw);
      if found.Err? {
        return Err(if found.error == NotFound then InvalidRefreshToken else found.error);
      }
      var rt := found.value;
      if rt.revoked {
        var _ :- backend.RevokeAllForUser(rt.user);
        return Err(InvalidRefreshToken);
      }
      if rt.IsExpired(backend.clock) {
        return Err(InvalidRefreshToken);
      }
      var u := backend.GetUser(rt.user);
      if u.Err? {
        return Err(InvalidRefreshToken);
      }
      if u.value.deletionPending {
        var _ := backend.RevokeAllForUser(rt.user);
        return Err(InvalidRefreshToken);
      }
      var _ :- backend.Revoke(raw);
      var session :- IssueSession(rt.user);
      backend.Note(Deliver(session.token, rt.user, ViaRefresh(raw)));
      return Ok(session);
    }

    method Logout(raw: Id) returns (r: Reply<Result>)
      modifies backend
      ensures Out(backend.State(), r) == AuthSpec.Logout(old(backend.State()), raw)
    {
      hide Repositories.GetToken, Repositories.Revoke, Repositories.DeactivateIfCurrent, Store.Note;
      var found := backend.GetToken(raw);
      if found == Err(NotFound) {
        return Ok(Nothing);
      }
      var rt :- found;
      if rt.revoked {
        return Ok(Nothing);
      }
      var _ :- backend.Revoke(raw);
      var _ :- backend.DeactivateIfCurrent(rt.user, raw);
      backend.Note(Schedule(rt.user, raw));
      return Ok(Nothing);
    }

    // ----- registration and login -----

    method BeginTOTPSetup(user: Id) returns (r: Reply<Result>)
      modifies backend
      ensures Out(backend.State(), r) == AuthSpec.BeginTOTPSetup(cfg, old(backend.State()), user)
    {
      hide Store.Draw, Store.Ask, Repositories.GetCredential, Repositories.CreateCredential,
           Repositories.UpdateCredential;
      var secret :- backend.Draw();
      var _ :- backend.Ask();
      var token :- backend.Draw();
      var found := backend.GetCredential(user);
      var expiresAt := backend.clock + cfg.setupTokenTTL;
      if found.Err? {
        if found.error != NotFound {
          return Err(found.error);
        }
        var credential := new Credential.New(user, secret, token, backend.clock, cfg.setupTokenTTL);
        var _ :- backend.CreateCredential(credential, token);
      } else {
        var credential := found.value;
        credential.BeginSetup(secret, token, backend.clock, cfg.setupTokenTTL);
        var _ :- backend.UpdateCredential(credential, Started(token), Max(secret, token) + 1);
      }
      return Ok(SetupRequired(token, secret, expiresAt));
    }

    method IssueLoginChallenge(user: Id) returns (r: Reply<Result>)
      modifies backend
      ensures Out(backend.State(), r) == AuthSpec.IssueLoginChallenge(cfg, old(backend.State()), user)
    {
      hide Store.Draw, Repositories.CreateChallenge;
      var challenge :- backend.Draw();
      var expiresAt := backend.clock + cfg.loginChallengeTTL;
      var _ :- backend.CreateChallenge(challenge, LoginChallenge(user, expiresAt, false));
      return Ok(OtpRequired(challenge, expiresAt));
    }

    method Register(email: string, password: string) returns (r: Reply<Result>)
      modifies backend
      ensures Out(backend.State(), r) == AuthSpec.Register(cfg, old(backend.State()), email, password)
    {
      hide Store.Ask, Repositories.CreateUser, AuthSpec.BeginTOTPSetup;
      var _ :- backend.Ask();
      var user := backend.NewId();
      var _ :- backend.CreateUser(user, cfg.normalizeEmail(email), password);
      r := BeginTOTPSetup(user);
    }

    method Login(email: string, password: string) returns (r: Reply<Result>)
      modifies backend
      ensures Out(backend.State(), r) == AuthSpec.Login(cfg, old(backend.State()), email, password)
    {
      hide Repositories.GetCredential, AuthSpec.BeginTOTPSetup, AuthSpec.IssueLoginChallenge, Turn;
      var found := backend.GetUserByEmail(cfg.normalizeEmail(email));
      if found.Err? {
        return Err(if found.error == NotFound then InvalidCredentials else found.error);
      }
      var user := found.value;
      TurnReads(old(backend.State()));
      if backend.users[user].password != password || backend.users[user].deletionPending {
        return Err(InvalidCredentials);
      }
      var credential := backend.GetCredential(user);
      if credential.Err? && credential.error != NotFound {
        return Err(credential.error);
      }
      if credential.Ok? && credential.value.enabled {
        r := IssueLoginChallenge(user);
      } else {
        r := BeginTOTPSetup(user);
      }
    }

    /** Issues the first session, and only then enables the credential. */
    method SetupVerifyOTP(token: Id, code: string) returns (r: Reply<Result>)
      modifies backend
      ensures Out(backend.State(), r) == AuthSpec.SetupVerifyOTP(cfg, old(backend.State()), token, code)
    {
      hide Repositories.GetBySetupToken, Repositories.GetUser, AuthSpec.VerifyOTP, AuthSpec.IssueSession,
           Repositories.UpdateCredential, Store.Note;
      var found := backend.GetBySetupToken(token);
      if found.Err? {
        return Err(if found.error == NotFound then SetupTokenInvalid else found.error);
      }
      var credential := found.value;
      if credential.Row().IsSetupTokenExpired(backend.clock) {
        return Err(SetupTokenInvalid);
      }
      var user := credential.userId;
      var u :- backend.GetUser(user);
      var _ :- VerifyOTP(u.email, credential, code, ForSetup);
      if u.deletionPending {
        return Err(InvalidCredentials);
      }
      var session :- IssueSession(user);
      credential.Enable();
      var _ :- backend.UpdateCredential(credential, Enrolled(token), 0);
      backend.Note(Deliver(session.token, user, ViaSetup(token)));
      return Ok(session);
    }

    /** Issues the session, and only then consumes the challenge. */
    method LoginVerifyOTP(challenge: Id, code: string) returns (r: Reply<Result>)
      modifies backend
      ensures Out(backend.State(), r) == AuthSpec.LoginVerifyOTP(cfg, old(backend.State()), challenge, code)
    {
      hide Repositories.GetChallenge, Repositories.GetCredential, Repositories.GetUser, AuthSpec.VerifyOTP,
           AuthSpec.IssueSession, Repositories.ConsumeChallenge, Store.Note;
      var found := backend.GetChallenge(challenge);
      if found.Err? {
        return Err(if found.error == NotFound then ChallengeInvalid else found.error);
      }
      var c := found.value;
      if c.IsExpired(backend.clock) || c.consumed {
        return Err(ChallengeInvalid);
      }
      var credential := backend.GetCredential(c.user);
      if credential.Err? {
        return Err(if credential.error == NotFound then ChallengeInvalid else credential.error);
      }
      var u :- backend.GetUser(c.user);
      var _ :- VerifyOTP(u.email, credential.value, code, ForLogin);
      if u.deletionPending {
        return Err(ChallengeInvalid);
      }
      var session :- IssueSession(c.user);
      var _ :- backend.ConsumeChallenge(challenge);
      backend.Note(Deliver(session.token, c.user, ViaChallenge(challenge)));
      return Ok(session);
    }

    // ----- changing a password, deleting an account -----

    method ChangePassword(user: Id, current: string, code: string, newPassword: string) returns (r: Reply<Result>)
      modifies backend
      ensures Out(backend.State(), r)
              == AuthSpec.ChangePassword(cfg, old(backend.State()), user, current, code, newPassword)
    {
      hide Repositories.GetUser, Repositories.GetCredential, AuthSpec.VerifyOTP, Store.Ask, Repositories.UpdatePassword,
           Repositories.RevokeAllForUser, Repositories.DeactivateAndReturnPrevious, Store.Note;
      var u :- backend.GetUser(user);
      if u.password != current {
        return Err(CurrentPasswordInvalid);
      }
      var credential := backend.GetCredential(user);
      if credential.Err? {
        return Err(if credential.error == NotFound then OtpInvalid else credential.error);
      }
      var _ :- VerifyOTP(u.email, credential.value, code, ForPasswordChange);
      var _ :- backend.Ask();
      var _ :- backend.UpdatePassword(user, newPassword, ByOwner);
      var _ :- backend.RevokeAllForUser(user);
      var previous :- backend.DeactivateAndReturnPrevious(user);
      if previous.Some? {
        backend.Note(Schedule(user, previous.value));
      }
      return Ok(Nothing);
    }

    method DeleteAccount(user: Id, code: string) returns (r: Reply<Result>)
      modifies backend
      ensures Out(backend.State(), r) == AuthSpec.DeleteAccount(cfg, old(backend.State()), user, code)
    {
      hide Repositories.GetUser, Repositories.GetCredential, AuthSpec.VerifyOTP, Repositories.RequestDeletion,
           Repositories.RevokeAllForUser, Repositories.Deactivate;
      var u :- backend.GetUser(user);
      var credential := backend.GetCredential(user);
      if credential.Err? {
        return Err(if credential.error == NotFound then OtpInvalid else credential.error);
      }
      var _ :- VerifyOTP(u.email, credential.value, code, ForDeletion);
      var _ :- backend.RequestDeletion(user);
      var _ :- backend.RevokeAllForUser(user);
      var _ :- backend.Deactivate(user);
      return Ok(Nothing);
    }

    // ----- password reset -----

    method RequestPasswordReset(email: string) returns (r: Reply<Result>)
      modifies backend
      ensures Out(backend.State(), r) == AuthSpec.RequestPasswordReset(cfg, old(backend.State()), email)
    {
      hide Repositories.GetUserByEmail, Repositories.GetCredential, Store.Draw, Repositories.CreateFlow;
      var eligible: Option<Id> := None;
      var user := backend.GetUserByEmail(cfg.normalizeEmail(email));
      if user.Ok? {
        var credential := backend.GetCredential(user.value);
        if credential.Err? && credential.error != NotFound {
          return Err(credential.error);
        }
        if credential.Ok? && credential.value.enabled {
          eligible := Some(user.value);
        }
      } else if user.error != NotFound {
        return Err(user.error);
      }
      var id :- backend.Draw();
      var flow := new PasswordResetFlow.New(id, eligible, backend.clock, cfg.resetFlowTTL);
      var _ :- backend.CreateFlow(flow);
      return Ok(FlowStarted(id, flow.expiresAt));
    }

    /** Whether the code opens the flow. */
    method CheckResetCode(flow: PasswordResetFlow, code: string) returns (r: Reply<bool>)
      modifies backend
      ensures Out(backend.State(), r) == AuthSpec.CheckResetCode(cfg, old(backend.State()), flow.Row(), code)
    {
      hide Repositories.GetCredential, Repositories.GetUser, AuthSpec.ValidateOTP, Repositories.UpdateCredential;
      if flow.user.None? {
        return Ok(false);
      }
      var found := backend.GetCredential(flow.user.value);
      if found.Err? {
        return if found.error == NotFound then Ok(false) else Err(found.error);
      }
      var credential := found.value;
      if !credential.enabled {
        return Ok(false);
      }
      var u :- backend.GetUser(flow.user.value);
      var v :- ValidateOTP(u.email, credential, code);
      if !v.ok || (!v.demo && credential.Row().IsCodeConsumed(v.counter)) {
        return Ok(false);
      }
      if !v.demo {
        credential.MarkCodeUsed(v.counter);
        var _ :- backend.UpdateCredential(credential, UsedByReset(v.counter, backend.clock), 0);
      }
      return Ok(true);
    }

    method VerifyPasswordResetOTP(id: Id, code: string) returns (r: Reply<Result>)
      modifies backend
      ensures Out(backend.State(), r) == AuthSpec.VerifyPasswordResetOTP(cfg, old(backend.State()), id, code)
    {
      hide Repositories.GetFlow, AuthSpec.CheckResetCode, Repositories.UpdateFlow, Store.Draw;
      var found := backend.GetFlow(id);
      if found.Err? {
        return Err(if found.error == NotFound then FlowInvalid else found.error);
      }
      var flow := found.value;
      if flow.Row().IsExpired(backend.clock) || flow.consumed || flow.otpVerified {
        return Err(FlowInvalid);
      }
      if flow.Row().IsOTPLocked(cfg.resetFlowMaxAttempts) {
        return Err(OtpLocked);
      }
      var valid :- CheckResetCode(flow, code);
      if !valid {
        var locked := flow.RecordOTPFailure(cfg.resetFlowMaxAttempts);
        var _ :- backend.UpdateFlow(flow, Missed, 0);
        return Err(if locked then OtpLocked else OtpInvalid);
      }
      var token :- backend.Draw();
      flow.MarkOTPVerified();
      flow.IssueResetToken(token, backend.clock, cfg.resetTokenTTL);
      var _ :- backend.UpdateFlow(flow, Verified(token), token + 1);
      return Ok(ResetAllowed(token, flow.reset.value.expiresAt));
    }

    method ConfirmPasswordReset(token: Id, newPassword: string) returns (r: Reply<Result>)
      modifies backend
      ensures Out(backend.State(), r) == AuthSpec.ConfirmPasswordReset(old(backend.State()), token, newPassword)
    {
      hide Repositories.GetByResetToken, Store.Ask, Repositories.UpdatePassword, Repositories.UpdateFlow,
           Repositories.RevokeAllForUser, Repositories.DeactivateAndReturnPrevious, Store.Note;
      var found := backend.GetByResetToken(token);
      if found.Err? {
        return Err(if found.error == NotFound then ResetTokenInvalid else found.error);
      }
      var flow := found.value;
      if flow.Row().IsExpired(backend.clock) || flow.consumed || !flow.otpVerified
         || !flow.Row().IsResetTokenValid(backend.clock) || flow.user.None? {
        return Err(ResetTokenInvalid);
      }
      var user := flow.user.value;
      var _ :- backend.Ask();
      var _ :- backend.UpdatePassword(user, newPassword, ByFlow(flow.id));
      flow.Consume();
      var _ :- backend.UpdateFlow(flow, Spent, 0);
      var _ :- backend.RevokeAllForUser(user);
      var previous :- backend.DeactivateAndReturnPrevious(user);
      if previous.Some? {
        backend.Note(Schedule(user, previous.value));
      }
      return Ok(Nothing);
    }
  }

  lemma TurnReads(w: World)
    ensures Turn(w).tables == w.tables
  {
  }
}
