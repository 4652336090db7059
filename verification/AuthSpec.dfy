/** The authentication use cases as functions from the world before a call to the world
    after it and the reply. Every port call may fail, with or without taking effect; a
    failing call leaves behind the micro-state it had reached, so the functions' results
    over all plans are all micro-states of a call. */
module AuthSpec {
  import opened Basics
  import opened Credentials
  import opened ResetFlows
  import opened Store
  import opened Repositories
  import Totp

  const DEMO_EMAIL: string := "demo@gmail.com"
  const DEMO_CODE: string := "123456"

  /** The security settings, and the two library functions the service relies on. */
  datatype Config = Config(
    hotp: Totp.Hotp,
    normalizeEmail: string -> string,
    refreshTTL: int,
    setupTokenTTL: int,
    loginChallengeTTL: int,
    resetFlowTTL: int,
    resetTokenTTL: int,
    otpMaxAttempts: int,
    otpLockout: int,
    resetFlowMaxAttempts: int)

  datatype Result =
    | Session(user: Id, token: Id, expiresAt: int)
    | OtpRequired(challenge: Id, expiresAt: int)
    | SetupRequired(setupToken: Id, secret: Id, expiresAt: int)
    | FlowStarted(flow: Id, expiresAt: int)
    | ResetAllowed(resetToken: Id, expiresAt: int)
    | Nothing

  datatype Verdict = Verdict(ok: bool, counter: nat, demo: bool)

  // ----- the OTP gate -----

  function ValidateOTP(cfg: Config, w: World, email: string, row: CredentialRow, code: string): Out<Verdict> {
    if email == DEMO_EMAIL && code == DEMO_CODE then Out(w, Ok(Verdict(true, 0, true)))
    else
      var (w1, _) :- Ask(w); // decrypt the secret
      var matched := Totp.Matched(cfg.hotp, code, row.secret, w1.clock);
      Out(w1, Ok(if matched.Some? then Verdict(true, matched.value, false) else Verdict(false, 0, false)))
  }

  predicate Accepts(row: CredentialRow, v: Verdict) {
    v.ok && (v.demo || !row.IsCodeConsumed(v.counter))
  }

  /** The gate shared by setup, login, password change and deletion. On success the reply
      is the credential row as written. */
  function VerifyOTP(cfg: Config, w: World, email: string, user: Id, row: CredentialRow, code: string,
                     purpose: Purpose): Out<CredentialRow> {
    if row.IsLocked(w.clock) then Out(w, Err(OtpLocked))
    else
      var (w1, v) :- ValidateOTP(cfg, w, email, row, code);
      if Accepts(row, v) then
        var row1 := row.AfterSuccess(v.counter);
        var (w2, _) :- UpdateCredential(w1, user, row1, Passed(v.counter, w1.clock, v.demo, purpose));
        Out(w2, Ok(row1))
      else
        var row1 := row.AfterFailure(cfg.otpMaxAttempts, cfg.otpLockout, w1.clock);
        var (w2, _) :- UpdateCredential(w1, user, row1, Failed(w1.clock));
        Out(w2, Err(if row1.IsLocked(w2.clock) then OtpLocked else OtpInvalid))
  }

  // ----- sessions -----

  /** The single choke point that hands out a session. */
  function IssueSession(cfg: Config, w: World, user: Id): (o: Out<Result>)
    ensures o.r.Ok? ==> o.r.value.Session? && o.r.value.user == user
  {
    var (w1, _) :- RevokeAllForUser(w, user);
    var (w2, token) :- Draw(w1);
    var expiresAt := w2.clock + cfg.refreshTTL;
    var (w3, previous) :- ActivateAndReturnPrevious(w2, user, token, cfg.refreshTTL);
    var (w4, _) :- CreateToken(w3, token, RefreshToken(user, expiresAt, false));
    var w5 := if previous.Some? then Note(w4, Schedule(user, previous.value)) else w4;
    var (w6, _) :- Ask(w5); // sign the access token
    Out(w6, Ok(Session(user, token, expiresAt)))
  }

  function Refresh(cfg: Config, w: World, raw: Id): Out<Result> {
    var (w1, rt) :- GetToken(w, raw).NotFoundAs(InvalidRefreshToken);
    if rt.revoked then
      var (w2, _) :- RevokeAllForUser(w1, rt.user);
      Out(w2, Err(InvalidRefreshToken))
    else if rt.IsExpired(w1.clock) then Out(w1, Err(InvalidRefreshToken))
    else
      var (w2, u) :- GetUser(w1, rt.user).AnyErrorAs(InvalidRefreshToken);
      if u.deletionPending then Out(RevokeAllForUser(w2, rt.user).w, Err(InvalidRefreshToken))
      else Rotate(cfg, w2, rt.user, raw)
  }

  /** Revokes the presented token and issues its successor. */
  function Rotate(cfg: Config, w: World, user: Id, raw: Id): Out<Result> {
    var (w1, _) :- Revoke(w, raw);
    var (w2, session) :- IssueSession(cfg, w1, user);
    Out(Note(w2, Deliver(session.token, user, ViaRefresh(raw))), Ok(session))
  }

  function Logout(w: World, raw: Id): Out<Result> {
    var found := GetToken(w, raw);
    if found.r == Err(NotFound) then Out(found.w, Ok(Nothing))
    else
      var (w1, rt) :- found;
      if rt.revoked then Out(w1, Ok(Nothing))
      else
        var (w2, _) :- Revoke(w1, raw);
        var (w3, _) :- DeactivateIfCurrent(w2, rt.user, raw);
        Out(Note(w3, Schedule(rt.user, raw)), Ok(Nothing))
  }

  // ----- registration and login -----

  function BeginTOTPSetup(cfg: Config, w: World, user: Id): Out<Result> {
    var (w1, secret) :- Draw(w);
    var (w2, _) :- Ask(w1); // encrypt the secret
    var (w3, token) :- Draw(w2);
    var found := GetCredential(w3, user);
    var expiresAt := found.w.clock + cfg.setupTokenTTL;
    if found.r == Err(NotFound) then
      var (w4, _) :- CreateCredential(found.w, user, Credentials.NewRow(secret, token, expiresAt), token);
      Out(w4, Ok(SetupRequired(token, secret, expiresAt)))
    else
      var (w4, row) :- found;
      var (w5, _) :- UpdateCredential(w4, user, row.Restarted(secret, token, expiresAt), Started(token));
      Out(w5, Ok(SetupRequired(token, secret, expiresAt)))
  }

  function IssueLoginChallenge(cfg: Config, w: World, user: Id): Out<Result> {
    var (w1, challenge) :- Draw(w);
    var expiresAt := w1.clock + cfg.loginChallengeTTL;
    var (w2, _) :- CreateChallenge(w1, challenge, LoginChallenge(user, expiresAt, false));
    Out(w2, Ok(OtpRequired(challenge, expiresAt)))
  }

  function Register(cfg: Config, w: World, email: string, password: string): Out<Result> {
    var (w1, _) :- Ask(w); // hash the password
    var user := w1.next;
    var w2 := w1.(next := user + 1);
    var (w3, _) :- CreateUser(w2, user, cfg.normalizeEmail(email), password);
    BeginTOTPSetup(cfg, w3, user)
  }

  function Login(cfg: Config, w: World, email: string, password: string): Out<Result> {
    var (w1, user) :- GetUserByEmail(w, cfg.normalizeEmail(email)).NotFoundAs(InvalidCredentials);
    if w1.tables.users[user].password != password then Out(w1, Err(InvalidCredentials))
    else if w1.tables.users[user].deletionPending then Out(w1, Err(InvalidCredentials))
    else
      var found := GetCredential(w1, user);
      if found.r.Err? && found.r.error != NotFound then Out(found.w, Err(found.r.error))
      else if found.r.Ok? && found.r.value.enabled then IssueLoginChallenge(cfg, found.w, user)
      else BeginTOTPSetup(cfg, found.w, user)
  }

  function SetupVerifyOTP(cfg: Config, w: World, token: Id, code: string): Out<Result> {
    var (w1, user) :- GetBySetupToken(w, token).NotFoundAs(SetupTokenInvalid);
    var row := w1.tables.credentials[user];
    if row.IsSetupTokenExpired(w1.clock) then Out(w1, Err(SetupTokenInvalid))
    else
      var (w2, u) :- GetUser(w1, user);
      var (w3, row1) :- VerifyOTP(cfg, w2, u.email, user, row, code, ForSetup);
      if u.deletionPending then Out(w3, Err(InvalidCredentials))
      else Enrol(cfg, w3, user, row1, token)
  }

  /** Issues the first session, and only then enables the credential. */
  function Enrol(cfg: Config, w: World, user: Id, row: CredentialRow, token: Id): Out<Result> {
    var (w1, session) :- IssueSession(cfg, w, user);
    var (w2, _) :- UpdateCredential(w1, user, row.AsEnabled(), Enrolled(token));
    Out(Note(w2, Deliver(session.token, user, ViaSetup(token))), Ok(session))
  }

  function LoginVerifyOTP(cfg: Config, w: World, challenge: Id, code: string): Out<Result> {
    var (w1, c) :- GetChallenge(w, challenge).NotFoundAs(ChallengeInvalid);
    if c.IsExpired(w1.clock) || c.consumed then Out(w1, Err(ChallengeInvalid))
    else
      var (w2, row) :- GetCredential(w1, c.user).NotFoundAs(ChallengeInvalid);
      var (w3, u) :- GetUser(w2, c.user);
      var (w4, _) :- VerifyOTP(cfg, w3, u.email, c.user, row, code, ForLogin);
      if u.deletionPending then Out(w4, Err(ChallengeInvalid))
      else Admit(cfg, w4, c.user, challenge)
  }

  /** Issues the session, and only then consumes the challenge. */
  function Admit(cfg: Config, w: World, user: Id, challenge: Id): Out<Result> {
    var (w1, session) :- IssueSession(cfg, w, user);
    var (w2, _) :- ConsumeChallenge(w1, challenge);
    Out(Note(w2, Deliver(session.token, user, ViaChallenge(challenge))), Ok(session))
  }

  // ----- changing a password, deleting an account -----

  /** Clears the marker and schedules the cleanup of the session it named, if any. */
  function EndSession(w: World, user: Id): Out<Result> {
    var (w1, previous) :- DeactivateAndReturnPrevious(w, user);
    Out(if previous.Some? then Note(w1, Schedule(user, previous.value)) else w1, Ok(Nothing))
  }

  function ChangePassword(cfg: Config, w: World, user: Id, current: string, code: string,
                          newPassword: string): Out<Result> {
    var (w1, u) :- GetUser(w, user);
    if u.password != current then Out(w1, Err(CurrentPasswordInvalid))
    else
      var (w2, row) :- GetCredential(w1, user).NotFoundAs(OtpInvalid);
      var (w3, _) :- VerifyOTP(cfg, w2, u.email, user, row, code, ForPasswordChange);
      var (w4, _) :- Ask(w3); // hash the new password
      var (w5, _) :- UpdatePassword(w4, user, newPassword, ByOwner);
      var (w6, _) :- RevokeAllForUser(w5, user);
      EndSession(w6, user)
  }

  function DeleteAccount(cfg: Config, w: World, user: Id, code: string): Out<Result> {
    var (w1, u) :- GetUser(w, user);
    var (w2, row) :- GetCredential(w1, user).NotFoundAs(OtpInvalid);
    var (w3, _) :- VerifyOTP(cfg, w2, u.email, user, row, code, ForDeletion);
    var (w4, _) :- RequestDeletion(w3, user);
    var (w5, _) :- RevokeAllForUser(w4, user);
    var (w6, _) :- Deactivate(w5, user);
    Out(w6, Ok(Nothing))
  }

  // ----- password reset -----

  function RequestPasswordReset(cfg: Config, w: World, email: string): Out<Result> {
    var found := GetUserByEmail(w, cfg.normalizeEmail(email));
    if found.r == Err(NotFound) then StartFlow(cfg, found.w, None)
    else
      var (w1, user) :- found;
      var cred := GetCredential(w1, user);
      if cred.r.Err? && cred.r.error != NotFound then Out(cred.w, Err(cred.r.error))
      else StartFlow(cfg, cred.w, if cred.r.Ok? && cred.r.value.enabled then Some(user) else None)
  }

  function StartFlow(cfg: Config, w: World, user: Option<Id>): Out<Result> {
    var (w1, flow) :- Draw(w);
    var expiresAt := w1.clock + cfg.resetFlowTTL;
    var (w2, _) :- CreateFlow(w1, flow, ResetFlows.NewRow(user, expiresAt));
    Out(w2, Ok(FlowStarted(flow, expiresAt)))
  }

  /** Whether the code opens the flow. An accepted code is marked used on the credential;
      nothing else of the credential is touched. */
  function CheckResetCode(cfg: Config, w: World, flow: FlowRow, code: string): Out<bool> {
    if flow.user.None? then Out(w, Ok(false))
    else
      var user := flow.user.value;
      var cred := GetCredential(w, user);
      if cred.r.Err? && cred.r.error != NotFound then Out(cred.w, Err(cred.r.error))
      else if cred.r.Err? || !cred.r.value.enabled then Out(cred.w, Ok(false))
      else
        var row := cred.r.value;
        var (w1, u) :- GetUser(cred.w, user);
        var (w2, v) :- ValidateOTP(cfg, w1, u.email, row, code);
        if !Accepts(row, v) then Out(w2, Ok(false))
        else if v.demo then Out(w2, Ok(true))
        else
          var (w3, _) :- UpdateCredential(w2, user, row.WithCodeUsed(v.counter), UsedByReset(v.counter, w2.clock));
          Out(w3, Ok(true))
  }

  function VerifyPasswordResetOTP(cfg: Config, w: World, flow: Id, code: string): Out<Result> {
    var (w1, f) :- GetFlow(w, flow).NotFoundAs(FlowInvalid);
    if f.IsExpired(w1.clock) || f.consumed || f.otpVerified then Out(w1, Err(FlowInvalid))
    else if f.IsOTPLocked(cfg.resetFlowMaxAttempts) then Out(w1, Err(OtpLocked))
    else
      var (w2, valid) :- CheckResetCode(cfg, w1, f, code);
      if !valid then
        var f1 := f.AfterFailure();
        var (w3, _) :- UpdateFlow(w2, flow, f1, Missed);
        Out(w3, Err(if f1.IsOTPLocked(cfg.resetFlowMaxAttempts) then OtpLocked else OtpInvalid))
      else
        var (w3, token) :- Draw(w2);
        var expiresAt := w3.clock + cfg.resetTokenTTL;
        var (w4, _) :- UpdateFlow(w3, flow, f.AfterVerified(token, expiresAt), Verified(token));
        Out(w4, Ok(ResetAllowed(token, expiresAt)))
  }

  function ConfirmPasswordReset(w: World, token: Id, newPassword: string): Out<Result> {
    var (w1, flow) :- GetByResetToken(w, token).NotFoundAs(ResetTokenInvalid);
    var f := w1.tables.flows[flow];
    if f.IsExpired(w1.clock) || f.consumed || !f.otpVerified || !f.IsResetTokenValid(w1.clock) || f.user.None? then
      Out(w1, Err(ResetTokenInvalid))
    else
      var user := f.user.value;
      var (w2, _) :- Ask(w1); // hash the new password
      var (w3, _) :- UpdatePassword(w2, user, newPassword, ByFlow(flow));
      var (w4, _) :- UpdateFlow(w3, flow, f.AfterConsumed(), Spent);
      var (w5, _) :- RevokeAllForUser(w4, user);
      EndSession(w5, user)
  }

  // ----- runs -----

  /** Everything that can happen to the tables: a use case, or the deletion worker's
      removal of the row of an account whose deletion is pending. */
  datatype Request =
    | DoRegister(email: string, password: string)
    | DoLogin(email: string, password: string)
    | DoRefresh(raw: Id)
    | DoLogout(raw: Id)
    | DoDelete(user: Id, code: string)
    | DoSetupVerify(token: Id, code: string)
    | DoLoginVerify(challenge: Id, code: string)
    | DoChangePassword(user: Id, current: string, code: string, newPassword: string)
    | DoRequestReset(email: string)
    | DoVerifyReset(flow: Id, code: string)
    | DoConfirmReset(token: Id, newPassword: string)
    | WorkerDeletes(user: Id)

  function WorkerDelete(w: World, user: Id): Out<Result> {
    if user in w.tables.users && w.tables.users[user].deletionPending then
      var (w1, _) :- Write(w, DropUser(user));
      Out(w1, Ok(Nothing))
    else Out(w, Err(NotFound))
  }

  function Perform(cfg: Config, w: World, request: Request): Out<Result> {
    match request
    case DoRegister(email, password) => Register(cfg, w, email, password)
    case DoLogin(email, password) => Login(cfg, w, email, password)
    case DoRefresh(raw) => Refresh(cfg, w, raw)
    case DoLogout(raw) => Logout(w, raw)
    case DoDelete(user, code) => DeleteAccount(cfg, w, user, code)
    case DoSetupVerify(token, code) => SetupVerifyOTP(cfg, w, token, code)
    case DoLoginVerify(challenge, code) => LoginVerifyOTP(cfg, w, challenge, code)
    case DoChangePassword(user, current, code, newPassword) =>
      ChangePassword(cfg, w, user, current, code, newPassword)
    case DoRequestReset(email) => RequestPasswordReset(cfg, w, email)
    case DoVerifyReset(flow, code) => VerifyPasswordResetOTP(cfg, w, flow, code)
    case DoConfirmReset(token, newPassword) => ConfirmPasswordReset(w, token, newPassword)
    case WorkerDeletes(user) => WorkerDelete(w, user)
  }

  /** A call: when it arrives, how the ports will answer it, and what it asks for. */
  datatype Call = Call(at: nat, plan: seq<Answer>, request: Request)

  function Enter(w: World, call: Call): World {
    Note(w.(clock := Max(w.clock, call.at), plan := call.plan), Begin)
  }

  function Exec(cfg: Config, w: World, call: Call): Out<Result> {
    Perform(cfg, Enter(w, call), call.request)
  }

  function Run(cfg: Config, w: World, calls: seq<Call>): World
    decreases |calls|
  {
    if calls == [] then w else Run(cfg, Exec(cfg, w, calls[0]).w, calls[1..])
  }

  const START: World := World(EMPTY, 0, [], 0)
}
