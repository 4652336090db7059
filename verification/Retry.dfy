/** A failed issue can be retried, and a fresh code is soon accepted again. */
module Retry {
  import opened Basics
  import opened Credentials
  import opened Store
  import opened Repositories
  import opened AuthSpec
  import opened Protocol
  import opened Structure
  import opened Conformance
  import opened Provenance
  import opened AntiReplay
  import Totp

  // ----- a failure leaves the challenge and the setup token alone -----

  /** The challenge tables and every pending setup are as they were. */
  predicate Kept(s: Tables, s0: Tables) {
    && s.challenges == s0.challenges && s.users == s0.users
    && s.credentials.Keys == s0.credentials.Keys
    && forall u | u in s.credentials ::
         && s.credentials[u].setup == s0.credentials[u].setup
         && s.credentials[u].secret == s0.credentials[u].secret
         && s.credentials[u].enabled == s0.credentials[u].enabled
  }

  lemma ValidateReads(cfg: Config, w: World, email: string, row: CredentialRow, code: string)
    ensures ValidateOTP(cfg, w, email, row, code).w.tables == w.tables
  {
    hide Totp.Matched;
  }

  lemma UpdateKeeps(w: World, user: Id, row: CredentialRow, why: CredentialWrite)
    requires user in w.tables.credentials
    requires var before := w.tables.credentials[user];
             row.setup == before.setup && row.secret == before.secret && row.enabled == before.enabled
    ensures Kept(UpdateCredential(w, user, row, why).w.tables, w.tables)
  {
  }

  lemma VerifyKeeps(cfg: Config, w: World, email: string, user: Id, row: CredentialRow, code: string, purpose: Purpose)
    requires user in w.tables.credentials && w.tables.credentials[user] == row
    ensures Kept(VerifyOTP(cfg, w, email, user, row, code, purpose).w.tables, w.tables)
  {
    hide ValidateOTP, UpdateCredential, Kept;
    TurnKeeps(w);
    if !row.IsLocked(w.clock) {
      ValidateReads(cfg, w, email, row, code);
      var o1 := ValidateOTP(cfg, w, email, row, code);
      if o1.r.Ok? {
        var v := o1.r.value;
        UpdateKeeps(o1.w, user, row.AfterSuccess(v.counter), Passed(v.counter, o1.w.clock, v.demo, purpose));
        UpdateKeeps(o1.w, user, row.AfterFailure(cfg.otpMaxAttempts, cfg.otpLockout, o1.w.clock), Failed(o1.w.clock));
      }
    }
  }

  predicate SameAccounts(s: Tables, s0: Tables) {
    s.challenges == s0.challenges && s.users == s0.users && s.credentials == s0.credentials
  }

  lemma WriteKeepsAccounts(w: World, e: Effect)
    requires e.RevokeAll? || e.Activate? || e.AddToken? || e.Schedule?
    ensures SameAccounts(Write(w, e).w.tables, w.tables) && SameAccounts(Note(w, e).tables, w.tables)
    ensures SameAccounts(Ask(w).w.tables, w.tables) && SameAccounts(Draw(w).w.tables, w.tables)
  {
    hide TokensAfter, MarkersAfter, FlowsAfter, JobsAfter, Bound;
  }

  lemma ActivateKeeps(w: World, user: Id, token: Id, ttl: int)
    ensures SameAccounts(ActivateAndReturnPrevious(w, user, token, ttl).w.tables, w.tables)
  {
    hide Write, LiveMarker;
    WriteKeepsAccounts(w, Activate(user, token, Turn(w).clock + ttl));
  }

  lemma CreateKeeps(w: World, token: Id, row: RefreshToken)
    ensures SameAccounts(CreateToken(w, token, row).w.tables, w.tables)
  {
    hide Write;
    WriteKeepsAccounts(w, AddToken(token, row));
  }

  lemma IssueKeeps(cfg: Config, w: World, user: Id)
    ensures SameAccounts(IssueSession(cfg, w, user).w.tables, w.tables)
  {
    hide Write, Ask, Draw, Note, Apply, ActivateAndReturnPrevious, CreateToken;
    WriteKeepsAccounts(w, RevokeAll(user));
    var o1 := RevokeAllForUser(w, user);
    WriteKeepsAccounts(o1.w, RevokeAll(user));
    var o2 := Draw(o1.w);
    if o2.r.Ok? {
      ActivateKeeps(o2.w, user, o2.r.value, cfg.refreshTTL);
      var o3 := ActivateAndReturnPrevious(o2.w, user, o2.r.value, cfg.refreshTTL);
      var row := RefreshToken(user, o2.w.clock + cfg.refreshTTL, false);
      CreateKeeps(o3.w, o2.r.value, row);
      var o4 := CreateToken(o3.w, o2.r.value, row);
      WriteKeepsAccounts(o4.w, RevokeAll(user));
      if o3.r.Ok? && o3.r.value.Some? {
        WriteKeepsAccounts(o4.w, Schedule(user, o3.r.value.value));
        WriteKeepsAccounts(Note(o4.w, Schedule(user, o3.r.value.value)), RevokeAll(user));
      }
    }
  }

  /** If the login fails before its challenge is consumed, the challenge is untouched. */
  lemma FailedLoginKeepsChallenge(cfg: Config, w: World, challenge: Id, code: string)
    ensures var o := LoginVerifyOTP(cfg, w, challenge, code);
            var log := o.w.tables.log;
            o.r.Err? ==> Kept(o.w.tables, w.tables) || (log != [] && log[|log| - 1].what == Consume(challenge))
  {
    hide VerifyOTP, IssueSession, Apply, Kept, Turn, Write;
    TurnKeeps(w);
    var o1 := GetChallenge(w, challenge).NotFoundAs(ChallengeInvalid);
    if o1.r.Ok? {
      TurnKeeps(o1.w);
      var o2 := GetCredential(o1.w, o1.r.value.user).NotFoundAs(ChallengeInvalid);
      TurnKeeps(o2.w);
      if o2.r.Ok? {
        var o3 := GetUser(o2.w, o1.r.value.user);
        if o3.r.Ok? {
          VerifyKeeps(cfg, o3.w, o3.r.value.email, o1.r.value.user, o2.r.value, code, ForLogin);
          var o4 := VerifyOTP(cfg, o3.w, o3.r.value.email, o1.r.value.user, o2.r.value, code, ForLogin);
          AdmitKeeps(cfg, o4.w, w.tables, o1.r.value.user, challenge);
        }
      }
    }
  }

  lemma TurnKeeps(w: World)
    ensures Turn(w).tables == w.tables && Kept(w.tables, w.tables)
  {
  }

  lemma AdmitKeeps(cfg: Config, w: World, s0: Tables, user: Id, challenge: Id)
    requires Kept(w.tables, s0)
    ensures var o := Admit(cfg, w, user, challenge);
            var log := o.w.tables.log;
            o.r.Err? ==> Kept(o.w.tables, s0) || (log != [] && log[|log| - 1].what == Consume(challenge))
  {
    hide IssueSession;
    IssueKeeps(cfg, w, user);
  }

  /** If the setup fails before the credential is enabled, its setup token is untouched. */
  lemma FailedSetupKeepsToken(cfg: Config, w: World, token: Id, code: string)
    ensures var o := SetupVerifyOTP(cfg, w, token, code);
            var log := o.w.tables.log;
            o.r.Err? ==> Kept(o.w.tables, w.tables) || (log != [] && EnrolsWith(log[|log| - 1].what, token))
  {
    hide VerifyOTP, IssueSession, Apply, Kept, Turn, Write, Enrol;
    TurnKeeps(w);
    var o1 := GetBySetupToken(w, token).NotFoundAs(SetupTokenInvalid);
    if o1.r.Ok? {
      var user := o1.r.value;
      var row := o1.w.tables.credentials[user];
      TurnKeeps(o1.w);
      var o2 := GetUser(o1.w, user);
      if o2.r.Ok? {
        VerifyKeeps(cfg, o2.w, o2.r.value.email, user, row, code, ForSetup);
        var o3 := VerifyOTP(cfg, o2.w, o2.r.value.email, user, row, code, ForSetup);
        if o3.r.Ok? {
          EnrolKeeps(cfg, o3.w, w.tables, user, o3.r.value, token);
        }
      }
    }
  }

  lemma EnrolKeeps(cfg: Config, w: World, s0: Tables, user: Id, row: CredentialRow, token: Id)
    requires Kept(w.tables, s0)
    ensures var o := Enrol(cfg, w, user, row, token);
            var log := o.w.tables.log;
            o.r.Err? ==> Kept(o.w.tables, s0) || (log != [] && EnrolsWith(log[|log| - 1].what, token))
  {
    hide IssueSession;
    IssueKeeps(cfg, w, user);
  }

  // ----- without port failures, a good code delivers -----

  /** The gate, entered in this world, accepts the code: the account is not locked then, and the
      code is one it accepts when it is checked, one port call later. */
  predicate GoodCode(cfg: Config, w: World, user: Id, code: string) {
    && user in w.tables.users && user in w.tables.credentials
    && var row := w.tables.credentials[user];
    && !row.IsLocked(w.clock)
    && ((w.tables.users[user].email == DEMO_EMAIL && code == DEMO_CODE)
        || (var matched := Totp.Matched(cfg.hotp, code, row.secret, Turn(w).clock);
            matched.Some? && !row.IsCodeConsumed(matched.value)))
  }

  lemma WriteSucceeds(w: World, e: Effect)
    requires NoFaults(w.plan)
    ensures Write(w, e) == Out(Note(Turn(w), e), Ok(())) && NoFaults(Write(w, e).w.plan)
    ensures Write(w, e).w.tables == Apply(w.tables, Turn(w).clock, e)
    ensures Note(w, e).tables == Apply(w.tables, w.clock, e) && Note(w, e).plan == w.plan
  {
    hide Apply;
    TurnNoFaults(w);
  }

  lemma CredentialWritten(s: Tables, at: nat, user: Id, row: CredentialRow, why: CredentialWrite)
    ensures var s1 := Apply(s, at, WriteCredential(user, row, why));
            && s1.users == s.users && s1.tokens == s.tokens && s1.markers == s.markers
            && s1.challenges == s.challenges && s1.credentials == s.credentials[user := row]
  {
  }

  lemma GoodCodePasses(cfg: Config, w: World, user: Id, code: string, purpose: Purpose)
    requires NoFaults(w.plan) && GoodCode(cfg, w, user, code)
    ensures var row := w.tables.credentials[user];
            var o := VerifyOTP(cfg, w, w.tables.users[user].email, user, row, code, purpose);
            && o.r.Ok? && NoFaults(o.w.plan)
            && o.r.value.setup == row.setup
            && o.w.tables.users == w.tables.users && o.w.tables.challenges == w.tables.challenges
            && o.w.tables.credentials == w.tables.credentials[user := o.r.value]
  {
    hide Totp.Matched, Turn, Write, Apply, NoFaults;
    TurnNoFaults(w);
    var row := w.tables.credentials[user];
    var o1 := ValidateOTP(cfg, w, w.tables.users[user].email, row, code);
    var v := o1.r.value;
    var e := WriteCredential(user, row.AfterSuccess(v.counter), Passed(v.counter, o1.w.clock, v.demo, purpose));
    WriteSucceeds(o1.w, e);
    CredentialWritten(w.tables, Turn(o1.w).clock, user, e.credential, e.why);
  }

  /** The session is stored, marked and live. */
  predicate Held(s: Tables, user: Id, token: Id) {
    && token in s.tokens && s.tokens[token].user == user && !s.tokens[token].revoked
    && user in s.markers && s.markers[user].session == token
  }

  lemma IssueWrites(s: Tables, user: Id, token: Id, until: int, row: RefreshToken, at: nat, later: nat, previous: Id)
    requires row.user == user && !row.revoked
    ensures Apply(s, at, RevokeAll(user)).users == s.users
    ensures Apply(s, at, Activate(user, token, until)).users == s.users
    ensures var s1 := Apply(Apply(s, at, Activate(user, token, until)), later, AddToken(token, row));
            Held(s1, user, token) && Held(Apply(s1, later, Schedule(user, previous)), user, token)
  {
    hide CredentialsAfter, ChallengesAfter, FlowsAfter, JobsAfter, Bound;
  }

  lemma IssueSucceeds(cfg: Config, w: World, user: Id)
    requires NoFaults(w.plan) && user in w.tables.users
    ensures var o := IssueSession(cfg, w, user);
            o.r.Ok? && NoFaults(o.w.plan) && Held(o.w.tables, user, o.r.value.token)
  {
    hide Turn, Write, Draw, Note, Apply, NoFaults, Held, LiveMarker;
    WriteSucceeds(w, RevokeAll(user));
    var o1 := RevokeAllForUser(w, user);
    TurnNoFaults(o1.w);
    var o2 := Draw(o1.w);
    var token, until := o2.r.value, Turn(o2.w).clock + cfg.refreshTTL;
    var row := RefreshToken(user, o2.w.clock + cfg.refreshTTL, false);
    IssueWrites(w.tables, user, token, until, row, Turn(w).clock, 0, 0);
    WriteSucceeds(o2.w, Activate(user, token, until));
    var o3 := ActivateAndReturnPrevious(o2.w, user, token, cfg.refreshTTL);
    TurnNoFaults(o2.w);
    var previous := if o3.r.value.Some? then o3.r.value.value else 0;
    IssueWrites(o2.w.tables, user, token, until, row, Turn(o2.w).clock, Turn(o3.w).clock, previous);
    WriteSucceeds(o3.w, AddToken(token, row));
    var o4 := CreateToken(o3.w, token, row);
    WriteSucceeds(o4.w, Schedule(user, previous));
    ClockOfWrite(o3.w, AddToken(token, row));
    TurnNoFaults(o4.w);
    TurnNoFaults(Note(o4.w, Schedule(user, previous)));
  }

  lemma ClockOfWrite(w: World, e: Effect)
    ensures Write(w, e).w.clock == Turn(w).clock
  {
  }

  /** The reply hands out a session that is stored, marked and live. */
  predicate DeliversLive(o: Out<Result>, user: Id) {
    && o.r.Ok? && o.r.value.Session? && o.r.value.user == user
    && Held(o.w.tables, user, o.r.value.token)
  }

  lemma HeldOn(s: Tables, user: Id, token: Id, at: nat, e: Effect)
    requires Held(s, user, token) && (e.Consume? || e.WriteCredential? || e.Deliver?)
    ensures Held(Apply(s, at, e), user, token)
  {
    hide UsersAfter, CredentialsAfter, ChallengesAfter, FlowsAfter, JobsAfter, Bound;
  }

  lemma AdmitSucceeds(cfg: Config, w: World, user: Id, challenge: Id)
    requires NoFaults(w.plan) && user in w.tables.users
    ensures DeliversLive(Admit(cfg, w, user, challenge), user)
  {
    hide IssueSession, Write, Note, Turn, Apply, NoFaults, Held;
    IssueSucceeds(cfg, w, user);
    var o1 := IssueSession(cfg, w, user);
    var token := o1.r.value.token;
    TurnNoFaults(o1.w);
    WriteSucceeds(o1.w, Consume(challenge));
    HeldOn(o1.w.tables, user, token, Turn(o1.w).clock, Consume(challenge));
    var o2 := ConsumeChallenge(o1.w, challenge);
    WriteSucceeds(o2.w, Deliver(token, user, ViaChallenge(challenge)));
    HeldOn(o2.w.tables, user, token, o2.w.clock, Deliver(token, user, ViaChallenge(challenge)));
  }

  lemma EnrolSucceeds(cfg: Config, w: World, user: Id, row: CredentialRow, token: Id)
    requires NoFaults(w.plan) && user in w.tables.users && user in w.tables.credentials
    ensures DeliversLive(Enrol(cfg, w, user, row, token), user)
  {
    hide IssueSession, Write, Note, Turn, Apply, NoFaults, Held;
    IssueSucceeds(cfg, w, user);
    IssueKeeps(cfg, w, user);
    var o1 := IssueSession(cfg, w, user);
    var session := o1.r.value.token;
    var e := WriteCredential(user, row.AsEnabled(), Enrolled(token));
    WriteSucceeds(o1.w, e);
    HeldOn(o1.w.tables, user, session, Turn(o1.w).clock, e);
    var o2 := UpdateCredential(o1.w, user, row.AsEnabled(), Enrolled(token));
    WriteSucceeds(o2.w, Deliver(session, user, ViaSetup(token)));
    HeldOn(o2.w.tables, user, session, o2.w.clock, Deliver(session, user, ViaSetup(token)));
  }

  /** A live challenge and a good code deliver a session to an active account. The challenge is
      looked up after one port call; the gate is entered after three. */
  lemma LoginDelivers(cfg: Config, w: World, challenge: Id, code: string)
    requires NoFaults(w.plan) && challenge in w.tables.challenges
    requires var c := w.tables.challenges[challenge];
             && !c.consumed && !c.IsExpired(Turn(w).clock)
             && IsActive(w.tables, c.user) && GoodCode(cfg, Turn(Turn(Turn(w))), c.user, code)
    ensures DeliversLive(LoginVerifyOTP(cfg, w, challenge, code), w.tables.challenges[challenge].user)
  {
    hide VerifyOTP, Admit, Apply, DeliversLive, Turn, NoFaults;
    TurnNoFaults(w);
    TurnNoFaults(Turn(w));
    TurnNoFaults(Turn(Turn(w)));
    var c, gate := w.tables.challenges[challenge], Turn(Turn(Turn(w)));
    GoodCodePasses(cfg, gate, c.user, code, ForLogin);
    var row := w.tables.credentials[c.user];
    var o := VerifyOTP(cfg, gate, w.tables.users[c.user].email, c.user, row, code, ForLogin);
    AdmitSucceeds(cfg, o.w, c.user, challenge);
  }

  lemma SetupFound(cfg: Config, w: World, user: Id, token: Id)
    requires WorldOk(cfg, [], w)
    requires user in w.tables.credentials && HoldsSetup(w.tables.credentials[user], token)
    ensures UserWithSetup(w.tables.credentials, token, w.tables.top) == Some(user)
  {
    hide Legal, Replay;
    Structural(cfg, w.tables.log);
    SetupsAlwaysDistinct(cfg, w.tables.log);
    assert HasSetup(w.tables.credentials, user, token) && user < w.tables.top;
  }

  /** A pending, unexpired setup token and a good code enable the credential and deliver a
      session to an active account. The gate is entered after two port calls. */
  lemma SetupDelivers(cfg: Config, w: World, user: Id, token: Id, code: string)
    requires WorldOk(cfg, [], w) && NoFaults(w.plan)
    requires user in w.tables.credentials && HoldsSetup(w.tables.credentials[user], token)
    requires !w.tables.credentials[user].IsSetupTokenExpired(Turn(w).clock)
    requires IsActive(w.tables, user) && GoodCode(cfg, Turn(Turn(w)), user, code)
    ensures DeliversLive(SetupVerifyOTP(cfg, w, token, code), user)
  {
    hide VerifyOTP, Enrol, Apply, DeliversLive, WorldOk, Turn, NoFaults, UserWithSetup;
    SetupFound(cfg, w, user, token);
    TurnNoFaults(w);
    TurnNoFaults(Turn(w));
    var gate := Turn(Turn(w));
    GoodCodePasses(cfg, gate, user, code, ForSetup);
    var row := w.tables.credentials[user];
    var o := VerifyOTP(cfg, gate, w.tables.users[user].email, user, row, code, ForSetup);
    EnrolSucceeds(cfg, o.w, user, o.r.value, token);
  }

  // ----- challenges and setup tokens wait -----

  /** The challenge is as it was, or its account is gone for good. */
  predicate Waits(s: Tables, challenge: Id, c: LoginChallenge) {
    && challenge < s.top && c.user < s.top
    && (challenge in s.challenges ==> s.challenges[challenge] == c)
    && (challenge !in s.challenges ==> c.user !in s.users)
  }

  lemma WaitsStep(cfg: Config, s: Tables, at: nat, e: Effect, challenge: Id, c: LoginChallenge)
    requires Waits(s, challenge, c) && Enabled(cfg, s, at, e) && e != Consume(challenge)
    ensures Waits(Apply(s, at, e), challenge, c)
  {
    hide TokensAfter, CredentialsAfter, FlowsAfter, MarkersAfter, JobsAfter;
  }

  lemma {:induction false} ChallengeWaits(cfg: Config, log: seq<Entry>, i: nat, j: nat, challenge: Id)
    requires Legal(cfg, log) && i <= j <= |log| && challenge in Replay(log[..i]).challenges
    requires forall m | i <= m < j :: log[m].what != Consume(challenge)
    ensures Waits(Replay(log[..j]), challenge, Replay(log[..i]).challenges[challenge])
    decreases j
  {
    hide Legal, Replay, Enabled, Apply, Waits;
    if i == j {
      PrefixLegal(cfg, log, i);
      Structural(cfg, log[..i]);
      WaitsAtFirst(Replay(log[..i]), challenge);
    } else {
      ChallengeWaits(cfg, log, i, j - 1, challenge);
      EntryEnabled(cfg, log, j - 1);
      WaitsStep(cfg, Replay(log[..j - 1]), log[j - 1].at, log[j - 1].what, challenge,
                Replay(log[..i]).challenges[challenge]);
    }
  }

  lemma WaitsAtFirst(s: Tables, challenge: Id)
    requires Bounded(s) && Anchored(s) && challenge in s.challenges
    ensures Waits(s, challenge, s.challenges[challenge])
  {
  }

  /** The write takes the user's pending setup away: a new one is started, or it is completed. */
  predicate EndsSetup(e: Effect, user: Id) {
    e.WriteCredential? && e.user == user && (e.why.Started? || e.why.Enrolled?)
  }

  /** The user's setup is still pending, or the account is gone for good. */
  predicate SetupWaits(s: Tables, user: Id, setup: Setup) {
    && user < s.top
    && (user in s.credentials ==> s.credentials[user].setup == Some(setup))
    && (user !in s.credentials ==> user !in s.users)
  }

  lemma SetupWaitsStep(cfg: Config, s: Tables, at: nat, e: Effect, user: Id, setup: Setup)
    requires SetupWaits(s, user, setup) && Enabled(cfg, s, at, e) && !EndsSetup(e, user)
    ensures SetupWaits(Apply(s, at, e), user, setup)
  {
    hide TokensAfter, ChallengesAfter, FlowsAfter, MarkersAfter, JobsAfter, InWindow;
  }

  lemma {:induction false} SetupWaitsOn(cfg: Config, log: seq<Entry>, i: nat, j: nat, user: Id, setup: Setup)
    requires Legal(cfg, log) && i <= j <= |log|
    requires user in Replay(log[..i]).credentials && Replay(log[..i]).credentials[user].setup == Some(setup)
    requires forall m | i <= m < j :: !EndsSetup(log[m].what, user)
    ensures SetupWaits(Replay(log[..j]), user, setup)
    decreases j
  {
    hide Legal, Replay, Enabled, Apply, EndsSetup;
    if i == j {
      PrefixLegal(cfg, log, i);
      Structural(cfg, log[..i]);
    } else {
      SetupWaitsOn(cfg, log, i, j - 1, user, setup);
      EntryEnabled(cfg, log, j - 1);
      SetupWaitsStep(cfg, Replay(log[..j - 1]), log[j - 1].at, log[j - 1].what, user, setup);
    }
  }

  // ----- retries, as later calls of a run -----

  lemma EnterKeepsRows(w: World, call: Call)
    ensures var v := Enter(w, call);
            && v.tables.challenges == w.tables.challenges && v.tables.credentials == w.tables.credentials
            && v.tables.users == w.tables.users && v.plan == call.plan
  {
  }

  /** A challenge that is not consumed can be used after any run of other calls: if it has not
      expired when it is looked up, a good code delivers a session to its account. */
  lemma ChallengeDelivers(cfg: Config, w: World, challenge: Id, calls: seq<Call>, retry: Call, code: string)
    requires WorldOk(cfg, [], w) && challenge in w.tables.challenges && !w.tables.challenges[challenge].consumed
    requires var log := Run(cfg, w, calls).tables.log;
             forall m | |w.tables.log| <= m < |log| :: log[m].what != Consume(challenge)
    requires retry.request == DoLoginVerify(challenge, code) && NoFaults(retry.plan)
    requires var c, v := w.tables.challenges[challenge], Enter(Run(cfg, w, calls), retry);
             && !c.IsExpired(Turn(v).clock)
             && IsActive(v.tables, c.user) && GoodCode(cfg, Turn(Turn(Turn(v))), c.user, code)
    ensures DeliversLive(Exec(cfg, Run(cfg, w, calls), retry), w.tables.challenges[challenge].user)
  {
    hide Legal, Replay, Run, Enter, LoginVerifyOTP, GoodCode, DeliversLive, Turn, NoFaults;
    var v := Run(cfg, w, calls);
    var log, i := v.tables.log, |w.tables.log|;
    Rebased(cfg, w);
    RunsAreLegal(cfg, w.tables.log, w, calls);
    assert log[..i] == w.tables.log && log[..|log|] == log;
    ChallengeWaits(cfg, log, i, |log|, challenge);
    EnterKeepsRows(v, retry);
    LoginDelivers(cfg, Enter(v, retry), challenge, code);
  }

  /** Likewise a setup token that no new setup has replaced. */
  lemma SetupTokenDelivers(cfg: Config, w: World, user: Id, setup: Setup, calls: seq<Call>, retry: Call, code: string)
    requires WorldOk(cfg, [], w) && user in w.tables.credentials && w.tables.credentials[user].setup == Some(setup)
    requires var log := Run(cfg, w, calls).tables.log;
             forall m | |w.tables.log| <= m < |log| :: !EndsSetup(log[m].what, user)
    requires retry.request == DoSetupVerify(setup.token, code) && NoFaults(retry.plan)
    requires var v := Enter(Run(cfg, w, calls), retry);
             && Turn(v).clock <= setup.expiresAt
             && IsActive(v.tables, user) && GoodCode(cfg, Turn(Turn(v)), user, code)
    ensures DeliversLive(Exec(cfg, Run(cfg, w, calls), retry), user)
  {
    hide Legal, Replay, Run, Enter, SetupVerifyOTP, GoodCode, DeliversLive, Turn, NoFaults, EndsSetup;
    var v := Run(cfg, w, calls);
    var log, i := v.tables.log, |w.tables.log|;
    Rebased(cfg, w);
    RunsAreLegal(cfg, w.tables.log, w, calls);
    assert log[..i] == w.tables.log && log[..|log|] == log;
    SetupWaitsOn(cfg, log, i, |log|, user, setup);
    EnterKeepsRows(v, retry);
    EnterOk(cfg, [], v, retry);
    SetupDelivers(cfg, Enter(v, retry), user, setup.token, code);
  }

  /** A login that failed before its challenge was consumed can be retried, after any run of
      other calls that do not consume the challenge: before it expires, a good code delivers. */
  lemma FailedLoginIsRetryable(cfg: Config, w: World, challenge: Id, code: string, calls: seq<Call>, retry: Call,
                               code2: string)
    requires WorldOk(cfg, [], w) && challenge in w.tables.challenges && !w.tables.challenges[challenge].consumed
    requires var o := LoginVerifyOTP(cfg, w, challenge, code);
             var log := o.w.tables.log;
             && o.r.Err? && !(log != [] && log[|log| - 1].what == Consume(challenge))
             && var later := Run(cfg, o.w, calls).tables.log;
             forall m | |log| <= m < |later| :: later[m].what != Consume(challenge)
    requires retry.request == DoLoginVerify(challenge, code2) && NoFaults(retry.plan)
    requires var c := w.tables.challenges[challenge];
             var v := Enter(Run(cfg, LoginVerifyOTP(cfg, w, challenge, code).w, calls), retry);
             && !c.IsExpired(Turn(v).clock)
             && IsActive(v.tables, c.user) && GoodCode(cfg, Turn(Turn(Turn(v))), c.user, code2)
    ensures DeliversLive(Exec(cfg, Run(cfg, LoginVerifyOTP(cfg, w, challenge, code).w, calls), retry),
                         w.tables.challenges[challenge].user)
  {
    hide LoginVerifyOTP, GoodCode, DeliversLive, Legal, Replay, Run, Exec, Enter, Turn, NoFaults;
    FailedLoginKeepsChallenge(cfg, w, challenge, code);
    LoginVerifyOTPOk(cfg, [], w, challenge, code);
    ChallengeDelivers(cfg, LoginVerifyOTP(cfg, w, challenge, code).w, challenge, calls, retry, code2);
  }

  /** Likewise for a setup that failed before the credential was enabled. */
  lemma FailedSetupIsRetryable(cfg: Config, w: World, user: Id, setup: Setup, code: string, calls: seq<Call>,
                               retry: Call,
                               code2: string)
    requires WorldOk(cfg, [], w) && user in w.tables.credentials && w.tables.credentials[user].setup == Some(setup)
    requires var o := SetupVerifyOTP(cfg, w, setup.token, code);
             var log := o.w.tables.log;
             && o.r.Err? && !(log != [] && EnrolsWith(log[|log| - 1].what, setup.token))
             && var later := Run(cfg, o.w, calls).tables.log;
             forall m | |log| <= m < |later| :: !EndsSetup(later[m].what, user)
    requires retry.request == DoSetupVerify(setup.token, code2) && NoFaults(retry.plan)
    requires var v := Enter(Run(cfg, SetupVerifyOTP(cfg, w, setup.token, code).w, calls), retry);
             && Turn(v).clock <= setup.expiresAt
             && IsActive(v.tables, user) && GoodCode(cfg, Turn(Turn(v)), user, code2)
    ensures DeliversLive(Exec(cfg, Run(cfg, SetupVerifyOTP(cfg, w, setup.token, code).w, calls), retry), user)
  {
    hide SetupVerifyOTP, GoodCode, DeliversLive, Legal, Replay, Run, Exec, Enter, Turn, NoFaults, EndsSetup, EnrolsWith;
    FailedSetupKeepsToken(cfg, w, setup.token, code);
    SetupVerifyOTPOk(cfg, [], w, setup.token, code);
    SetupTokenDelivers(cfg, SetupVerifyOTP(cfg, w, setup.token, code).w, user, setup, calls, retry, code2);
  }

  // ----- a new account -----

  lemma SetupStarts(cfg: Config, w: World, user: Id)
    requires NoFaults(w.plan) && user in w.tables.users && user !in w.tables.credentials
    ensures var o := BeginTOTPSetup(cfg, w, user);
            && o.r.Ok? && o.r.value.SetupRequired?
            && o.w.tables.users == w.tables.users && user in o.w.tables.credentials
            && o.w.tables.credentials[user]
               == Credentials.NewRow(o.r.value.secret, o.r.value.setupToken, o.r.value.expiresAt)
  {
    hide Turn, Write, Draw, Apply, NoFaults;
    TurnNoFaults(w);
    var w1 := Draw(w).w;
    TurnNoFaults(w1);
    var w2 := Turn(w1);
    TurnNoFaults(w2);
    var w3 := Draw(w2).w;
    TurnNoFaults(w3);
    var w4 := Turn(w3);
    var row := Credentials.NewRow(Draw(w).r.value, Draw(w2).r.value, w4.clock + cfg.setupTokenTTL);
    WriteSucceeds(w4, WriteCredential(user, row, Started(Draw(w2).r.value)));
    CredentialWritten(w4.tables, Turn(w4).clock, user, row, Started(Draw(w2).r.value));
  }

  /** A new credential accepts every code that matches the step at which it is checked. */
  lemma NewRowAccepts(cfg: Config, w: World, user: Id, secret: Id, token: Id, expiresAt: int, code: string)
    requires user in w.tables.users && user in w.tables.credentials
    requires w.tables.credentials[user] == Credentials.NewRow(secret, token, expiresAt)
    requires cfg.hotp(code, Totp.Step(Turn(w).clock), secret).Match?
    ensures GoodCode(cfg, w, user, code)
  {
    hide Totp.Step;
  }

  /** From registration to the first session: registering an unused email succeeds. The code of
      the step at which it is checked is a good code in the next call. And whatever calls follow,
      the setup token and a good code deliver a live session before the token expires. */
  lemma RegistrationDelivers(cfg: Config, w: World, email: string, password: string, calls: seq<Call>, verify: Call,
                             code: string)
    requires WorldOk(cfg, [], w) && NoFaults(w.plan)
    requires forall u | u in w.tables.users :: w.tables.users[u].email != cfg.normalizeEmail(email)
    ensures var o := Register(cfg, w, email, password);
            var user := Turn(w).next;
            && o.r.Ok? && o.r.value.SetupRequired?
            && user in o.w.tables.credentials
            && o.w.tables.credentials[user].setup == Some(Setup(o.r.value.setupToken, o.r.value.expiresAt))
            && (var next := Turn(Turn(Enter(o.w, verify)));
                cfg.hotp(code, Totp.Step(Turn(next).clock), o.r.value.secret).Match? ==>
                  IsActive(Enter(o.w, verify).tables, user) && GoodCode(cfg, next, user, code))
            && var v := Enter(Run(cfg, o.w, calls), verify);
            (&& verify.request == DoSetupVerify(o.r.value.setupToken, code) && NoFaults(verify.plan)
             && (var log := Run(cfg, o.w, calls).tables.log;
                 forall m | |o.w.tables.log| <= m < |log| :: !EndsSetup(log[m].what, user))
             && Turn(v).clock <= o.r.value.expiresAt
             && IsActive(v.tables, user) && GoodCode(cfg, Turn(Turn(v)), user, code)
             ==> DeliversLive(Exec(cfg, Run(cfg, o.w, calls), verify), user))
  {
    hide Legal, Replay, BeginTOTPSetup, DeliversLive, Turn, Write, Apply, NoFaults, Run, Exec, Enter, GoodCode,
         EndsSetup,
         Totp.Step;
    TurnNoFaults(w);
    Structural(cfg, w.tables.log);
    var w1 := Turn(w);
    var user := w1.next;
    var w2 := w1.(next := user + 1);
    WriteSucceeds(w2, AddUser(user, cfg.normalizeEmail(email), password));
    AddUserWrites(w2.tables, Turn(w2).clock, user, cfg.normalizeEmail(email), password);
    var o3 := CreateUser(w2, user, cfg.normalizeEmail(email), password);
    SetupStarts(cfg, o3.w, user);
    RegisterOk(cfg, [], w, email, password);
    var o := Register(cfg, w, email, password);
    EnterKeepsRows(o.w, verify);
    var next := Turn(Turn(Enter(o.w, verify)));
    TurnKeeps(Enter(o.w, verify));
    TurnKeeps(Turn(Enter(o.w, verify)));
    if cfg.hotp(code, Totp.Step(Turn(next).clock), o.r.value.secret).Match? {
      NewRowAccepts(cfg, next, user, o.r.value.secret, o.r.value.setupToken, o.r.value.expiresAt, code);
    }
    var v := Enter(Run(cfg, o.w, calls), verify);
    if && verify.request == DoSetupVerify(o.r.value.setupToken, code) && NoFaults(verify.plan)
       && (var log := Run(cfg, o.w, calls).tables.log;
           forall m | |o.w.tables.log| <= m < |log| :: !EndsSetup(log[m].what, user))
       && Turn(v).clock <= o.r.value.expiresAt && IsActive(v.tables, user) && GoodCode(cfg, Turn(Turn(v)), user, code)
    {
      SetupTokenDelivers(cfg, o.w, user, Setup(o.r.value.setupToken, o.r.value.expiresAt), calls, verify, code);
    }
  }

  lemma AddUserWrites(s: Tables, at: nat, user: Id, email: string, password: string)
    ensures var s1 := Apply(s, at, AddUser(user, email, password));
            user in s1.users && !s1.users[user].deletionPending && s1.credentials == s.credentials
  {
  }

  // ----- how long until a fresh code is accepted -----

  /** The credential remembers exactly the counter, or is gone for good. */
  predicate Remembers(s: Tables, user: Id, counter: nat) {
    && user < s.top
    && (user in s.credentials ==> s.credentials[user].lastUsedCounter == Some(counter))
    && (user !in s.credentials ==> user !in s.users)
  }

  lemma RemembersStep(cfg: Config, s: Tables, at: nat, e: Effect, user: Id, counter: nat)
    requires Remembers(s, user, counter) && Enabled(cfg, s, at, e)
    requires !RecordsCode(e, user) && !RecordsDemo(e, user)
    ensures Remembers(Apply(s, at, e), user, counter)
  {
    hide TokensAfter, ChallengesAfter, FlowsAfter, MarkersAfter, JobsAfter, InWindow;
  }

  lemma RemembersBy(cfg: Config, log: seq<Entry>, i: nat, user: Id)
    requires Legal(cfg, log) && i < |log| && RecordsCode(log[i].what, user)
    ensures Remembers(Replay(log[..i + 1]), user, CounterOf(log[i].what))
  {
    hide Legal, Replay, InWindow;
    EntryEnabled(cfg, log, i);
    Structural(cfg, log[..i]);
  }

  lemma {:induction false} RemembersLater(cfg: Config, log: seq<Entry>, i: nat, j: nat, user: Id)
    requires Legal(cfg, log) && i < j <= |log| && RecordsCode(log[i].what, user)
    requires forall m | i < m < j :: !RecordsCode(log[m].what, user) && !RecordsDemo(log[m].what, user)
    ensures Remembers(Replay(log[..j]), user, CounterOf(log[i].what))
    decreases j
  {
    hide Legal, Replay, Enabled, Apply, Remembers, RecordsDemo;
    if j == i + 1 {
      RemembersBy(cfg, log, i, user);
    } else {
      RemembersLater(cfg, log, i, j - 1, user);
      EntryEnabled(cfg, log, j - 1);
      RemembersStep(cfg, Replay(log[..j - 1]), log[j - 1].at, log[j - 1].what, user, CounterOf(log[i].what));
    }
  }

  lemma StepAfterMinute(t: nat, t': nat)
    requires t + 60 * NANOS_PER_SECOND <= t'
    ensures Totp.Step(t) + 2 <= Totp.Step(t')
  {
    var s, s' := Totp.UnixSeconds(t), Totp.UnixSeconds(t');
    assert s + 60 <= s';
  }

  /** After a code checked at time t was accepted, an unlocked account accepts the current
      step's code whenever it is checked at t + 60 seconds or later, until another code is
      accepted; the current step is tried first, so a collision with its neighbour does not
      matter. */
  lemma FreshCodeAccepted(cfg: Config, w: World, i: nat, user: Id, code: string, purpose: Purpose)
    requires WorldOk(cfg, [], w) && NoFaults(w.plan)
    requires i < |w.tables.log| && RecordsCode(w.tables.log[i].what, user)
    requires forall m | i < m < |w.tables.log| ::
               !RecordsCode(w.tables.log[m].what, user) && !RecordsDemo(w.tables.log[m].what, user)
    requires CheckedAt(w.tables.log[i].what) + 60 * NANOS_PER_SECOND <= Turn(w).clock
    requires user in w.tables.users && user in w.tables.credentials && !w.tables.credentials[user].IsLocked(w.clock)
    requires cfg.hotp(code, Totp.Step(Turn(w).clock), w.tables.credentials[user].secret).Match?
    ensures VerifyOTP(cfg, w, w.tables.users[user].email, user, w.tables.credentials[user], code, purpose).r.Ok?
  {
    hide Legal, Replay, VerifyOTP, Totp.Step, Turn;
    var log := w.tables.log;
    assert log[..|log|] == log;
    RemembersLater(cfg, log, i, |log|, user);
    BurnedBy(cfg, log, i, user);
    StepAfterMinute(CheckedAt(log[i].what), Turn(w).clock);
    GoodCodePasses(cfg, w, user, code, purpose);
  }
}
