/** Who is let in: registration, login and the two OTP verifications, answered exactly. */
module Admissions {
  import opened Basics
  import opened Credentials
  import opened Store
  import opened Repositories
  import opened AuthSpec
  import opened Protocol
  import opened Structure
  import opened Conformance
  import opened Outcomes
  import opened Retry

  // ----- starting a setup -----

  /** What a login or registration leaves of a user's earlier codes: only the last used counter. */
  function LastCounter(credentials: map<Id, CredentialRow>, user: Id): Option<int> {
    if user in credentials then credentials[user].lastUsedCounter else None
  }

  /** A new setup: a fresh secret, a fresh token that expires one setup lifetime after the rows are
      read, not enabled, not locked, and no failure counted; the last used counter survives. */
  lemma SetupExactly(cfg: Config, v: World, w: World, n: nat, user: Id)
    requires NoFaults(w.plan) && Reached(v, w, n) && user in v.tables.users
    ensures var o := BeginTOTPSetup(cfg, v, user);
            var secret, token, expiresAt := v.next, v.next + 1, ClockAt(w, n + 4) + cfg.setupTokenTTL;
            var s, s' := v.tables, o.w.tables;
            && o.r == Ok(SetupRequired(token, secret, expiresAt))
            && s'.credentials == s.credentials[user :=
                 CredentialRow(secret, false, Some(Setup(token, expiresAt)), 0, None, LastCounter(s.credentials, user))]
            && s'.users == s.users && s'.tokens == s.tokens && s'.challenges == s.challenges
            && s'.flows == s.flows && s'.markers == s.markers && s'.jobs == s.jobs
  {
    hide Turn, Write, Draw, Apply, NoFaults, Reached, ClockAt;
    OneCall(v, w, n);
    var v1 := Draw(v).w;
    OneCall(v1, w, n + 1);
    var v2 := Turn(v1);
    OneCall(v2, w, n + 2);
    var v3 := Draw(v2).w;
    OneCall(v3, w, n + 3);
    var v4 := Turn(v3);
    ReachedClock(v4, w, n + 4);
    var row := CredentialRow(v.next, false, Some(Setup(v.next + 1, ClockAt(w, n + 4) + cfg.setupTokenTTL)), 0, None,
                             LastCounter(v.tables.credentials, user));
    OneWrite(v4, w, n + 4, WriteCredential(user, row, Started(v.next + 1)));
    CredentialRowOnly(v4.tables, ClockAt(w, n + 5), user, row, Started(v.next + 1));
  }

  lemma CredentialRowOnly(s: Tables, at: nat, user: Id, row: CredentialRow, why: CredentialWrite)
    ensures var s1 := Apply(s, at, WriteCredential(user, row, why));
            && s1.credentials == s.credentials[user := row]
            && s1.users == s.users && s1.tokens == s.tokens && s1.challenges == s.challenges
            && s1.flows == s.flows && s1.markers == s.markers && s1.jobs == s.jobs
  {
  }

  // ----- registration -----

  lemma UserRowOnly(s: Tables, at: nat, user: Id, email: string, password: string)
    ensures var s1 := Apply(s, at, AddUser(user, email, password));
            && s1.users == s.users[user := User(email, password, false)]
            && s1.credentials == s.credentials && s1.tokens == s.tokens && s1.challenges == s.challenges
            && s1.flows == s.flows && s1.markers == s.markers && s1.jobs == s.jobs
  {
  }

  lemma NextIsNew(cfg: Config, w: World)
    requires WorldOk(cfg, [], w)
    ensures w.next !in w.tables.users && w.next !in w.tables.credentials
  {
    hide Legal, Replay;
    Structural(cfg, w.tables.log);
  }

  /** A registration succeeds exactly for an email that is not in use. It stores the account with
      its password, and the setup that its answer hands out. */
  lemma RegisterExactly(cfg: Config, w: World, email: string, password: string)
    requires WorldOk(cfg, [], w) && NoFaults(w.plan)
    ensures var o := Register(cfg, w, email, password);
            var address, s, s' := cfg.normalizeEmail(email), w.tables, o.w.tables;
            if exists u | u in s.users :: s.users[u].email == address then
              o.r == Err(EmailTaken) && s' == s
            else
              var user, secret, token, expiresAt := w.next, w.next + 1, w.next + 2, ClockAt(w, 6) + cfg.setupTokenTTL;
              && o.r == Ok(SetupRequired(token, secret, expiresAt))
              && user !in s.users && s'.users == s.users[user := User(address, password, false)]
              && s'.credentials
                 == s.credentials[user := CredentialRow(secret, false, Some(Setup(token, expiresAt)), 0, None, None)]
              && s'.tokens == s.tokens && s'.markers == s.markers && s'.challenges == s.challenges
  {
    hide Turn, Write, BeginTOTPSetup, Apply, NoFaults, Reached, ClockAt, WorldOk;
    NextIsNew(cfg, w);
    LaterReads(w, 0);
    OneCall(w, w, 0);
    var user := w.next;
    var w2 := Turn(w).(next := user + 1);
    ReachedAgain(Turn(w), w2, w, 1);
    OneCall(w2, w, 1);
    var e := AddUser(user, cfg.normalizeEmail(email), password);
    OneWrite(w2, w, 1, e);
    UserRowOnly(w2.tables, ClockAt(w, 2), user, cfg.normalizeEmail(email), password);
    if !exists u | u in w.tables.users :: w.tables.users[u].email == cfg.normalizeEmail(email) {
      SetupExactly(cfg, Write(w2, e).w, w, 2, user);
    }
  }

  lemma ReachedAgain(v: World, v': World, w: World, n: nat)
    requires Reached(v, w, n) && v'.clock == v.clock && v'.plan == v.plan
    ensures Reached(v', w, n)
  {
  }

  // ----- login -----

  lemma EmailFound(cfg: Config, w: World, user: Id, email: string)
    requires WorldOk(cfg, [], w) && user in w.tables.users && w.tables.users[user].email == email
    ensures UserWithEmail(w.tables.users, email, w.tables.top) == Some(user)
    ensures forall v | v in w.tables.users && w.tables.users[v].email == email :: v == user
  {
    hide Legal, Replay;
    Structural(cfg, w.tables.log);
    var p := (u: Id) => u in w.tables.users && w.tables.users[u].email == email;
    assert p(user);
  }

  /** Under every plan of port answers a login with an email nobody has, a password that is not the
      stored one, or for an account that is being deleted is answered with an error and changes
      no table. */
  lemma LoginRefuses(cfg: Config, w: World, email: string, password: string)
    requires forall u | u in w.tables.users && w.tables.users[u].email == cfg.normalizeEmail(email) ::
               w.tables.users[u].password != password || w.tables.users[u].deletionPending
    ensures var o := Login(cfg, w, email, password); o.r.Err? && o.w.tables == w.tables
  {
    hide BeginTOTPSetup, IssueLoginChallenge;
  }

  lemma ChallengeRowOnly(s: Tables, at: nat, challenge: Id, row: LoginChallenge)
    ensures var s1 := Apply(s, at, AddChallenge(challenge, row));
            && s1.challenges == s.challenges[challenge := row]
            && s1.users == s.users && s1.credentials == s.credentials && s1.tokens == s.tokens
            && s1.flows == s.flows && s1.markers == s.markers && s1.jobs == s.jobs
  {
  }

  lemma ChallengeExactly(cfg: Config, v: World, w: World, n: nat, user: Id)
    requires NoFaults(w.plan) && Reached(v, w, n) && user in v.tables.users
    ensures var o := IssueLoginChallenge(cfg, v, user);
            var challenge, expiresAt, s, s' := v.next, ClockAt(w, n + 1) + cfg.loginChallengeTTL, v.tables, o.w.tables;
            && o.r == Ok(OtpRequired(challenge, expiresAt))
            && s'.challenges == s.challenges[challenge := LoginChallenge(user, expiresAt, false)]
            && s'.users == s.users && s'.credentials == s.credentials && s'.tokens == s.tokens
            && s'.flows == s.flows && s'.markers == s.markers && s'.jobs == s.jobs
  {
    hide Turn, Write, Draw, Apply, NoFaults, Reached, ClockAt;
    OneCall(v, w, n);
    var v1 := Draw(v).w;
    ReachedClock(v1, w, n + 1);
    var row := LoginChallenge(user, ClockAt(w, n + 1) + cfg.loginChallengeTTL, false);
    OneWrite(v1, w, n + 1, AddChallenge(v.next, row));
    ChallengeRowOnly(v1.tables, ClockAt(w, n + 2), v.next, row);
  }

  /** A login is answered with a challenge exactly if the password is the stored one and the account
      is active and enrolled; if it is not enrolled, with a setup; otherwise it is refused. The
      answer is what is stored: a challenge of that user that is not consumed, or the user's new
      setup, each with its configured lifetime. */
  lemma LoginExactly(cfg: Config, w: World, user: Id, email: string, password: string)
    requires WorldOk(cfg, [], w) && NoFaults(w.plan)
    requires user in w.tables.users && w.tables.users[user].email == cfg.normalizeEmail(email)
    ensures var o := Login(cfg, w, email, password);
            var s, s' := w.tables, o.w.tables;
            if s.users[user].password != password || s.users[user].deletionPending then
              o.r == Err(InvalidCredentials) && s' == s
            else if user in s.credentials && s.credentials[user].enabled then
              var challenge, expiresAt := w.next, ClockAt(w, 3) + cfg.loginChallengeTTL;
              && o.r == Ok(OtpRequired(challenge, expiresAt))
              && s'.challenges == s.challenges[challenge := LoginChallenge(user, expiresAt, false)]
              && s'.users == s.users && s'.credentials == s.credentials && s'.tokens == s.tokens
              && s'.flows == s.flows && s'.markers == s.markers && s'.jobs == s.jobs
            else
              var secret, token, expiresAt := w.next, w.next + 1, ClockAt(w, 6) + cfg.setupTokenTTL;
              && o.r == Ok(SetupRequired(token, secret, expiresAt))
              && s'.credentials == s.credentials[user :=
                   CredentialRow(secret, false, Some(Setup(token, expiresAt)), 0, None,
                                 LastCounter(s.credentials, user))]
              && s'.users == s.users && s'.tokens == s.tokens && s'.challenges == s.challenges
              && s'.flows == s.flows && s'.markers == s.markers && s'.jobs == s.jobs
  {
    hide Turn, UserWithEmail, BeginTOTPSetup, IssueLoginChallenge, NoFaults, Reached, ClockAt, WorldOk;
    EmailFound(cfg, w, user, cfg.normalizeEmail(email));
    LaterReads(w, 0);
    OneCall(w, w, 0);
    var w1 := Turn(w);
    OneCall(w1, w, 1);
    var w2 := Turn(w1);
    ChallengeExactly(cfg, w2, w, 2, user);
    SetupExactly(cfg, w2, w, 2, user);
  }

  // ----- the two verifications -----

  lemma ConsumeRowOnly(s: Tables, at: nat, challenge: Id)
    requires challenge in s.challenges
    ensures var s1 := Apply(s, at, Consume(challenge));
            && s1.challenges == s.challenges[challenge := s.challenges[challenge].(consumed := true)]
            && s1.users == s.users && s1.credentials == s.credentials && s1.tokens == s.tokens
            && s1.flows == s.flows && s1.markers == s.markers && s1.jobs == s.jobs
  {
  }

  lemma AdmitExactly(cfg: Config, v: World, w: World, n: nat, user: Id, challenge: Id)
    requires NoFaults(w.plan) && Reached(v, w, n) && user in v.tables.users
    requires challenge in v.tables.challenges && !v.tables.challenges[challenge].consumed
    ensures var o := Admit(cfg, v, user, challenge);
            var s, s', token, expiresAt := v.tables, o.w.tables, v.next, ClockAt(w, n + 2) + cfg.refreshTTL;
            && o.r == Ok(Session(user, token, expiresAt))
            && s'.challenges == s.challenges[challenge := s.challenges[challenge].(consumed := true)]
            && s'.users == s.users && s'.credentials == s.credentials && s'.flows == s.flows && s'.jobs == s.jobs
            && s'.markers == s.markers[user := Marker(token, ClockAt(w, n + 3) + cfg.refreshTTL)]
            && Succeeded(s.tokens, s'.tokens, user, token, expiresAt)
  {
    hide Turn, Write, Apply, NoFaults, Note, IssueSession, ClockAt, Reached, Succeeded;
    IssueExactly(cfg, v, w, n, user);
    var o1 := IssueSession(cfg, v, user);
    OneWrite(o1.w, w, n + 5, Consume(challenge));
    ConsumeRowOnly(o1.w.tables, ClockAt(w, n + 6), challenge);
    NotedRows(ConsumeChallenge(o1.w, challenge).w, Deliver(v.next, user, ViaChallenge(challenge)));
  }

  /** A login is completed exactly by a challenge that is stored, not consumed and not expired when
      it is looked up, with a code the gate accepts, for an account that is active. It consumes
      the challenge and hands out the session it stores. Otherwise no challenge, token, marker or
      user row changes. */
  lemma LoginVerifyExactly(cfg: Config, w: World, challenge: Id, code: string)
    requires NoFaults(w.plan)
    ensures var o := LoginVerifyOTP(cfg, w, challenge, code);
            var s, s' := w.tables, o.w.tables;
            if && challenge in s.challenges && !s.challenges[challenge].consumed
               && ClockAt(w, 1) <= s.challenges[challenge].expiresAt
               && s.challenges[challenge].user in s.credentials && s.challenges[challenge].user in s.users
               && !s.users[s.challenges[challenge].user].deletionPending
               && OpenedWith(cfg, s.credentials[s.challenges[challenge].user],
                             s.users[s.challenges[challenge].user].email, code, ClockAt(w, 3), ClockAt(w, 4)).Some?
            then
              var user := s.challenges[challenge].user;
              var n := 3 + GateCalls(s.users[user].email, code);
              var token, expiresAt := w.next, ClockAt(w, n + 2) + cfg.refreshTTL;
              && o.r == Ok(Session(user, token, expiresAt))
              && s'.challenges == s.challenges[challenge := s.challenges[challenge].(consumed := true)]
              && s'.markers == s.markers[user := Marker(token, ClockAt(w, n + 3) + cfg.refreshTTL)]
              && Succeeded(s.tokens, s'.tokens, user, token, expiresAt)
            else
              && o.r.Err? && s'.challenges == s.challenges && s'.tokens == s.tokens
              && s'.markers == s.markers && s'.users == s.users
              && (if challenge !in s.challenges || s.challenges[challenge].consumed
                     || s.challenges[challenge].expiresAt < ClockAt(w, 1)
                  then o.r == Err(ChallengeInvalid) && s' == s
                  else o.r.error in {ChallengeInvalid, OtpLocked, OtpInvalid, NotFound})
  {
    hide Turn, VerifyOTP, Admit, NoFaults, Reached, ClockAt, OpenedWith, GateCalls, Succeeded;
    LaterReads(w, 0);
    OneCall(w, w, 0);
    var w1 := Turn(w);
    ReachedClock(w1, w, 1);
    OneCall(w1, w, 1);
    var w2 := Turn(w1);
    OneCall(w2, w, 2);
    var w3 := Turn(w2);
    if challenge in w.tables.challenges {
      var user := w.tables.challenges[challenge].user;
      if user in w.tables.credentials && user in w.tables.users {
        var email, row := w.tables.users[user].email, w.tables.credentials[user];
        GateExactly(cfg, w3, w, 3, email, user, row, code, ForLogin);
        var o4 := VerifyOTP(cfg, w3, email, user, row, code, ForLogin);
        if o4.r.Ok? && !w.tables.challenges[challenge].consumed {
          AdmitExactly(cfg, o4.w, w, 3 + GateCalls(email, code), user, challenge);
        }
      }
    }
  }

  lemma EnrolExactly(cfg: Config, v: World, w: World, n: nat, user: Id, row: CredentialRow, token: Id)
    requires NoFaults(w.plan) && Reached(v, w, n) && user in v.tables.users && user in v.tables.credentials
    ensures var o := Enrol(cfg, v, user, row, token);
            var s, s', session, expiresAt := v.tables, o.w.tables, v.next, ClockAt(w, n + 2) + cfg.refreshTTL;
            && o.r == Ok(Session(user, session, expiresAt))
            && s'.credentials == s.credentials[user := row.(enabled := true, setup := None)]
            && s'.markers == s.markers[user := Marker(session, ClockAt(w, n + 3) + cfg.refreshTTL)]
            && Succeeded(s.tokens, s'.tokens, user, session, expiresAt)
  {
    hide Turn, Write, Apply, NoFaults, Note, IssueSession, ClockAt, Reached, Succeeded;
    IssueExactly(cfg, v, w, n, user);
    var o1 := IssueSession(cfg, v, user);
    var e := WriteCredential(user, row.AsEnabled(), Enrolled(token));
    OneWrite(o1.w, w, n + 5, e);
    CredentialRowOnly(o1.w.tables, ClockAt(w, n + 6), user, row.AsEnabled(), Enrolled(token));
    NotedRows(UpdateCredential(o1.w, user, row.AsEnabled(), Enrolled(token)).w, Deliver(v.next, user, ViaSetup(token)));
  }

  lemma SetupOwner(cfg: Config, w: World, user: Id, token: Id)
    requires WorldOk(cfg, [], w)
    requires user in w.tables.credentials && HoldsSetup(w.tables.credentials[user], token)
    ensures user in w.tables.users && w.tables.credentials[user].setup.Some?
    ensures UserWithSetup(w.tables.credentials, token, w.tables.top) == Some(user)
  {
    hide Legal, Replay, UserWithSetup;
    Structural(cfg, w.tables.log);
    SetupFound(cfg, w, user, token);
  }

  /** A setup is completed exactly by a token that some credential holds and that has not expired
      when it is looked up, with a code the gate accepts, for an account that is active. It enables
      the credential, takes the token away and hands out the session it stores. Otherwise the
      setup stays pending and no token or marker changes. */
  lemma SetupVerifyExactly(cfg: Config, w: World, user: Id, token: Id, code: string)
    requires WorldOk(cfg, [], w) && NoFaults(w.plan)
    requires user in w.tables.credentials && HoldsSetup(w.tables.credentials[user], token)
    ensures user in w.tables.users
    ensures var o := SetupVerifyOTP(cfg, w, token, code);
            var s, s' := w.tables, o.w.tables;
            var row, email := s.credentials[user], s.users[user].email;
            && user in s'.credentials
            && s'.credentials[user].secret == row.secret
            && if && ClockAt(w, 1) <= row.setup.value.expiresAt && !s.users[user].deletionPending
                  && OpenedWith(cfg, row, email, code, ClockAt(w, 2), ClockAt(w, 3)).Some?
               then
                 var n := 2 + GateCalls(email, code);
                 var session, expiresAt := w.next, ClockAt(w, n + 2) + cfg.refreshTTL;
                 && o.r == Ok(Session(user, session, expiresAt))
                 && s'.credentials[user].enabled && s'.credentials[user].setup == None
                 && s'.markers == s.markers[user := Marker(session, ClockAt(w, n + 3) + cfg.refreshTTL)]
                 && Succeeded(s.tokens, s'.tokens, user, session, expiresAt)
               else
                 && o.r.Err? && s'.credentials[user].enabled == row.enabled && s'.credentials[user].setup == row.setup
                 && s'.tokens == s.tokens && s'.markers == s.markers && s'.users == s.users
                 && (if row.setup.value.expiresAt < ClockAt(w, 1) then o.r == Err(SetupTokenInvalid) && s' == s
                     else o.r.error in {InvalidCredentials, OtpLocked, OtpInvalid})
  {
    hide Turn, VerifyOTP, Enrol, NoFaults, Reached, ClockAt, OpenedWith, GateCalls, Succeeded, UserWithSetup,
         WorldOk, HoldsSetup;
    SetupOwner(cfg, w, user, token);
    LaterReads(w, 0);
    OneCall(w, w, 0);
    var w1 := Turn(w);
    ReachedClock(w1, w, 1);
    OneCall(w1, w, 1);
    var w2 := Turn(w1);
    var email, row := w.tables.users[user].email, w.tables.credentials[user];
    GateExactly(cfg, w2, w, 2, email, user, row, code, ForSetup);
    var o3 := VerifyOTP(cfg, w2, email, user, row, code, ForSetup);
    if o3.r.Ok? {
      EnrolExactly(cfg, o3.w, w, 2 + GateCalls(email, code), user, o3.r.value, token);
    }
  }

  /** Under every plan, a setup token that no credential holds is refused and changes no table. */
  lemma UnknownSetupRefused(cfg: Config, w: World, token: Id, code: string)
    requires forall u | u in w.tables.credentials :: !HoldsSetup(w.tables.credentials[u], token)
    ensures var o := SetupVerifyOTP(cfg, w, token, code); o.r.Err? && o.w.tables == w.tables
  {
    hide VerifyOTP, Enrol;
  }

  // ----- password and code together -----

  /** The stored password and, after any run of other calls that do not consume the challenge, a
      code the gate accepts let an enrolled, active account in. */
  lemma PasswordAndCodeDeliver(cfg: Config, w: World, user: Id, email: string, password: string, calls: seq<Call>,
                               verify: Call, code: string)
    requires WorldOk(cfg, [], w) && NoFaults(w.plan)
    requires IsActive(w.tables, user) && user in w.tables.credentials && w.tables.credentials[user].enabled
    requires w.tables.users[user].email == cfg.normalizeEmail(email) && w.tables.users[user].password == password
    ensures var o := Login(cfg, w, email, password);
            && o.r.Ok? && o.r.value.OtpRequired?
            && var v := Enter(Run(cfg, o.w, calls), verify);
            (&& verify.request == DoLoginVerify(o.r.value.challenge, code) && NoFaults(verify.plan)
             && (var log := Run(cfg, o.w, calls).tables.log;
                 forall m | |o.w.tables.log| <= m < |log| :: log[m].what != Consume(o.r.value.challenge))
             && Turn(v).clock <= o.r.value.expiresAt
             && IsActive(v.tables, user) && GoodCode(cfg, Turn(Turn(Turn(v))), user, code)
             ==> DeliversLive(Exec(cfg, Run(cfg, o.w, calls), verify), user))
  {
    hide Legal, Replay, Login, Run, Enter, Exec, Turn, NoFaults, GoodCode, DeliversLive, ClockAt;
    LoginExactly(cfg, w, user, email, password);
    LoginOk(cfg, [], w, email, password);
    var o := Login(cfg, w, email, password);
    var v := Enter(Run(cfg, o.w, calls), verify);
    if && verify.request == DoLoginVerify(o.r.value.challenge, code) && NoFaults(verify.plan)
       && (var log := Run(cfg, o.w, calls).tables.log;
           forall m | |o.w.tables.log| <= m < |log| :: log[m].what != Consume(o.r.value.challenge))
       && Turn(v).clock <= o.r.value.expiresAt
       && IsActive(v.tables, user) && GoodCode(cfg, Turn(Turn(Turn(v))), user, code)
    {
      ChallengeDelivers(cfg, o.w, o.r.value.challenge, calls, verify, code);
    }
  }
}
