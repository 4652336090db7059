/** Device-cleanup conservation: without port failures, lapsed markers or account deletion,
    every session ever activated is either the marked one or scheduled for cleanup, once. */
module Cleanup {
  import opened Basics
  import opened Credentials
  import opened ResetFlows
  import opened Store
  import opened Repositories
  import opened AuthSpec
  import opened Protocol
  import opened Conformance
  import opened Sessions
  import Totp

  /** The sessions activated for the user, in entries of the log. */
  function Activated(log: seq<Entry>, user: Id): multiset<Id> {
    if log == [] then multiset{}
    else
      var n := |log| - 1;
      var e := log[n].what;
      var before := Activated(log[..n], user);
      if e.Activate? && e.user == user then before + multiset{e.token} else before
  }

  /** The user's sessions scheduled for cleanup, in entries of the log. */
  function Scheduled(log: seq<Entry>, user: Id): multiset<Id> {
    if log == [] then multiset{}
    else
      var n := |log| - 1;
      var e := log[n].what;
      var before := Scheduled(log[..n], user);
      if e.Schedule? && e.user == user then before + multiset{e.token} else before
  }

  function MarkedSession(s: Tables, user: Id): multiset<Id> {
    if user in s.markers then multiset{s.markers[user].session} else multiset{}
  }

  predicate Balanced(s: Tables, user: Id) {
    Activated(s.log, user) == Scheduled(s.log, user) + MarkedSession(s, user)
  }

  /** The effect concerns the user's marker or its cleanup. */
  predicate Touches(e: Effect, user: Id) {
    (e.Activate? || e.Schedule? || e.ClearMarker? || e.ClearMarkerIf?) && e.user == user
  }

  /** What one write adds to the user's activated and scheduled sessions. */
  lemma Appended(s: Tables, at: nat, e: Effect, user: Id)
    ensures var a := Activated(s.log, user);
            Activated(Apply(s, at, e).log, user) == if e.Activate? && e.user == user then a + multiset{e.token} else a
    ensures var c := Scheduled(s.log, user);
            Scheduled(Apply(s, at, e).log, user) == if e.Schedule? && e.user == user then c + multiset{e.token} else c
  {
    hide UsersAfter, TokensAfter, CredentialsAfter, ChallengesAfter, FlowsAfter, MarkersAfter, JobsAfter, Bound;
    var longer := Apply(s, at, e).log;
    assert longer[..|longer| - 1] == s.log;
  }

  lemma MarkersStay(s: Tables, at: nat, e: Effect, user: Id)
    requires !Touches(e, user) || e.Schedule?
    ensures MarkedSession(Apply(s, at, e), user) == MarkedSession(s, user)
    ensures user in s.markers <==> user in Apply(s, at, e).markers
    ensures user in s.markers ==> Apply(s, at, e).markers[user] == s.markers[user]
  {
    hide UsersAfter, TokensAfter, CredentialsAfter, ChallengesAfter, FlowsAfter, JobsAfter, Bound;
  }

  lemma UntouchedStep(s: Tables, at: nat, e: Effect, user: Id)
    requires !Touches(e, user)
    ensures Activated(Apply(s, at, e).log, user) == Activated(s.log, user)
    ensures Scheduled(Apply(s, at, e).log, user) == Scheduled(s.log, user)
    ensures Balanced(Apply(s, at, e), user) <==> Balanced(s, user)
    ensures user in s.markers <==> user in Apply(s, at, e).markers
    ensures user in s.markers ==> Apply(s, at, e).markers[user] == s.markers[user]
  {
    hide Apply, Activated, Scheduled, MarkedSession;
    Appended(s, at, e, user);
    MarkersStay(s, at, e, user);
  }

  // ----- calls without failures that end before the marker lapses -----

  function Duration(plan: seq<Answer>): nat {
    if plan == [] then 0 else plan[0].wait + Duration(plan[1..])
  }

  /** The latest time the rest of the call can reach. */
  function Deadline(w: World): nat {
    w.clock + Duration(w.plan)
  }

  predicate Fit(w: World, user: Id) {
    && NoFaults(w.plan)
    && Balanced(w.tables, user)
    && (user in w.tables.markers ==> Deadline(w) <= w.tables.markers[user].expiresAt)
  }

  lemma FitTurn(w: World, user: Id)
    requires Fit(w, user)
    ensures Fit(Turn(w), user) && Ask(w) == Out(Turn(w), Ok(())) && Turn(w).tables == w.tables
    ensures Draw(w).r.Ok? && Fit(Draw(w).w, user) && Draw(w).w.tables == w.tables
    ensures Head(w.plan).kind.Done? && Turn(w).clock <= Deadline(w)
  {
    hide Balanced;
    if w.plan != [] {
      assert w.plan[0].kind.Done?;
    }
  }

  lemma FitWrite(w: World, e: Effect, user: Id)
    requires Fit(w, user) && !Touches(e, user)
    ensures Fit(Write(w, e).w, user) && Fit(Note(w, e), user) && Write(w, e).r.Ok?
  {
    hide Apply, Balanced;
    FitTurn(w, user);
    UntouchedStep(w.tables, Turn(w).clock, e, user);
    UntouchedStep(w.tables, w.clock, e, user);
  }

  lemma BalancedWrite(w: World, e: Effect, user: Id)
    requires Balanced(w.tables, user) && !Touches(e, user)
    ensures Balanced(Write(w, e).w.tables, user) && Balanced(Note(w, e).tables, user) && Balanced(Turn(w).tables, user)
  {
    hide Apply, Balanced;
    UntouchedStep(w.tables, Turn(w).clock, e, user);
    UntouchedStep(w.tables, w.clock, e, user);
  }

  // ----- steps that leave the marker alone -----

  lemma FitUpdateCredential(w: World, who: Id, row: CredentialRow, why: CredentialWrite, user: Id)
    requires Fit(w, user)
    ensures Fit(UpdateCredential(w, who, row, why).w, user)
    ensures why.Started? ==> Fit(CreateCredential(w, who, row, why.token).w, user)
  {
    hide Fit, Write;
    FitTurn(w, user);
    FitWrite(w, WriteCredential(who, row, why), user);
  }

  lemma FitVerifyOTP(cfg: Config, w: World, email: string, who: Id, row: CredentialRow, code: string,
                     purpose: Purpose, user: Id)
    requires Fit(w, user)
    ensures Fit(ValidateOTP(cfg, w, email, row, code).w, user)
    ensures Fit(VerifyOTP(cfg, w, email, who, row, code, purpose).w, user)
  {
    hide Fit, UpdateCredential, Totp.Matched, Turn;
    FitTurn(w, user);
    var o := ValidateOTP(cfg, w, email, row, code);
    if o.r.Ok? {
      FitUpdateCredential(o.w, who, row.AfterSuccess(o.r.value.counter),
                          Passed(o.r.value.counter, o.w.clock, o.r.value.demo, purpose), user);
      FitUpdateCredential(o.w, who, row.AfterFailure(cfg.otpMaxAttempts, cfg.otpLockout, o.w.clock),
                          Failed(o.w.clock), user);
    }
  }

  lemma FitBeginTOTPSetup(cfg: Config, w: World, who: Id, user: Id)
    requires Fit(w, user)
    ensures Fit(BeginTOTPSetup(cfg, w, who).w, user)
  {
    hide Fit, UpdateCredential, CreateCredential, Draw, Turn;
    FitTurn(w, user);
    var o1 := Draw(w);
    FitTurn(o1.w, user);
    var o2 := Ask(o1.w);
    FitTurn(o2.w, user);
    var o3 := Draw(o2.w);
    FitTurn(o3.w, user);
    var found := GetCredential(o3.w, who);
    var secret, token, expiresAt := o1.r.value, o3.r.value, found.w.clock + cfg.setupTokenTTL;
    FitUpdateCredential(found.w, who, Credentials.NewRow(secret, token, expiresAt), Started(token), user);
    if found.r.Ok? {
      FitUpdateCredential(found.w, who, found.r.value.Restarted(secret, token, expiresAt), Started(token), user);
    }
  }

  lemma FitRegister(cfg: Config, w: World, email: string, password: string, user: Id)
    requires Fit(w, user)
    ensures Fit(Register(cfg, w, email, password).w, user)
  {
    hide Write, BeginTOTPSetup, Balanced, Turn;
    FitTurn(w, user);
    var o1 := Ask(w);
    var who := o1.w.next;
    var w2 := o1.w.(next := who + 1);
    FitTurn(w2, user);
    FitWrite(w2, AddUser(who, cfg.normalizeEmail(email), password), user);
    FitBeginTOTPSetup(cfg, CreateUser(w2, who, cfg.normalizeEmail(email), password).w, who, user);
  }

  lemma FitLogin(cfg: Config, w: World, email: string, password: string, user: Id)
    requires Fit(w, user)
    ensures Fit(Login(cfg, w, email, password).w, user)
  {
    hide Fit, Write, BeginTOTPSetup, Draw, Turn;
    FitTurn(w, user);
    var o1 := GetUserByEmail(w, cfg.normalizeEmail(email));
    if o1.r.Ok? {
      FitTurn(o1.w, user);
      var o2 := GetCredential(o1.w, o1.r.value);
      FitBeginTOTPSetup(cfg, o2.w, o1.r.value, user);
      FitTurn(o2.w, user);
      var o3 := Draw(o2.w);
      FitTurn(o3.w, user);
      FitWrite(o3.w, AddChallenge(o3.r.value, LoginChallenge(o1.r.value, o3.w.clock + cfg.loginChallengeTTL, false)),
               user);
    }
  }

  lemma FitStartFlow(cfg: Config, w: World, who: Option<Id>, user: Id)
    requires Fit(w, user)
    ensures Fit(StartFlow(cfg, w, who).w, user)
  {
    hide Fit, Write, Draw, Turn;
    FitTurn(w, user);
    var o1 := Draw(w);
    FitTurn(o1.w, user);
    FitWrite(o1.w, AddFlow(o1.r.value, ResetFlows.NewRow(who, o1.w.clock + cfg.resetFlowTTL)), user);
  }

  lemma FitRequestReset(cfg: Config, w: World, email: string, user: Id)
    requires Fit(w, user)
    ensures Fit(RequestPasswordReset(cfg, w, email).w, user)
  {
    hide Fit, StartFlow, Turn;
    FitTurn(w, user);
    var o1 := GetUserByEmail(w, cfg.normalizeEmail(email));
    FitStartFlow(cfg, o1.w, None, user);
    if o1.r.Ok? {
      FitTurn(o1.w, user);
      var o2 := GetCredential(o1.w, o1.r.value);
      FitStartFlow(cfg, o2.w, None, user);
      FitStartFlow(cfg, o2.w, Some(o1.r.value), user);
    }
  }

  lemma FitUpdateFlow(w: World, flow: Id, row: FlowRow, why: FlowWrite, user: Id)
    requires Fit(w, user)
    ensures Fit(UpdateFlow(w, flow, row, why).w, user)
  {
    hide Fit, Write;
    FitTurn(w, user);
    FitWrite(w, WriteFlow(flow, row, why), user);
  }

  lemma FitCheckResetCode(cfg: Config, w: World, f: FlowRow, code: string, user: Id)
    requires Fit(w, user)
    ensures Fit(CheckResetCode(cfg, w, f, code).w, user)
  {
    hide Fit, ValidateOTP, UpdateCredential, Turn;
    if f.user.Some? {
      var who := f.user.value;
      FitTurn(w, user);
      var o1 := GetCredential(w, who);
      if o1.r.Ok? {
        FitTurn(o1.w, user);
        var o2 := GetUser(o1.w, who);
        if o2.r.Ok? {
          FitVerifyOTP(cfg, o2.w, o2.r.value.email, who, o1.r.value, code, ForLogin, user);
          var o3 := ValidateOTP(cfg, o2.w, o2.r.value.email, o1.r.value, code);
          if o3.r.Ok? {
            FitUpdateCredential(o3.w, who, o1.r.value.WithCodeUsed(o3.r.value.counter),
                                UsedByReset(o3.r.value.counter, o3.w.clock), user);
          }
        }
      }
    }
  }

  lemma FitVerifyReset(cfg: Config, w: World, flow: Id, code: string, user: Id)
    requires Fit(w, user)
    ensures Fit(VerifyPasswordResetOTP(cfg, w, flow, code).w, user)
  {
    hide Fit, CheckResetCode, UpdateFlow, Draw, Turn;
    FitTurn(w, user);
    var o1 := GetFlow(w, flow);
    if o1.r.Ok? {
      var f := o1.r.value;
      FitCheckResetCode(cfg, o1.w, f, code, user);
      var o2 := CheckResetCode(cfg, o1.w, f, code);
      FitUpdateFlow(o2.w, flow, f.AfterFailure(), Missed, user);
      FitTurn(o2.w, user);
      var o3 := Draw(o2.w);
      FitUpdateFlow(o3.w, flow, f.AfterVerified(o3.r.value, o3.w.clock + cfg.resetTokenTTL), Verified(o3.r.value),
                    user);
    }
  }

  // ----- steps that move a session from marked to scheduled -----

  /** Replacing the user's marker keeps the balance exactly when the replaced session, if
      any, is scheduled. */
  lemma ReplaceStep(s: Tables, user: Id, token: Id, until: int, row: RefreshToken, at: nat, later: nat, last: nat)
    requires Balanced(s, user)
    ensures var s1 := Apply(Apply(s, at, Activate(user, token, until)), later, AddToken(token, row));
            && (Balanced(s1, user) <==> user !in s.markers)
            && (user in s.markers ==> Balanced(Apply(s1, last, Schedule(user, s.markers[user].session)), user))
  {
    hide Apply, Activated, Scheduled;
    var s0 := Apply(s, at, Activate(user, token, until));
    var s1 := Apply(s0, later, AddToken(token, row));
    Appended(s, at, Activate(user, token, until), user);
    ActivateMarks(s, at, user, token, until);
    UntouchedStep(s0, later, AddToken(token, row), user);
    if user in s.markers {
      var previous := s.markers[user].session;
      Appended(s1, last, Schedule(user, previous), user);
      MarkersStay(s1, last, Schedule(user, previous), user);
      Swapped(Activated(s.log, user), Scheduled(s.log, user), previous, token);
    }
  }

  lemma Swapped(a: multiset<Id>, c: multiset<Id>, previous: Id, token: Id)
    requires a == c + multiset{previous}
    ensures a + multiset{token} != c + multiset{token}
    ensures a + multiset{token} == c + multiset{previous} + multiset{token}
    ensures a != c
  {
    assert |a| == |c| + 1;
    assert |a + multiset{token}| == |c + multiset{token}| + 1;
  }

  lemma ActivateMarks(s: Tables, at: nat, user: Id, token: Id, until: int)
    ensures var s1 := Apply(s, at, Activate(user, token, until));
            s1.users == s.users && user in s1.markers && s1.markers[user] == Marker(token, until)
  {
  }

  predicate Clears(s: Tables, e: Effect, user: Id) {
    || e == ClearMarker(user)
    || (user in s.markers && e == ClearMarkerIf(user, s.markers[user].session))
  }

  lemma ClearUnmarks(s: Tables, at: nat, e: Effect, user: Id)
    requires Clears(s, e, user)
    ensures user !in Apply(s, at, e).markers
  {
    hide UsersAfter, TokensAfter, CredentialsAfter, ChallengesAfter, FlowsAfter, JobsAfter, Bound;
  }

  /** Clearing the user's marker keeps the balance exactly when the session it named, if any,
      is scheduled. */
  lemma ClearStep(s: Tables, user: Id, e: Effect, at: nat, last: nat)
    requires Balanced(s, user) && Clears(s, e, user)
    ensures Balanced(Apply(s, at, e), user) <==> user !in s.markers
    ensures user in s.markers ==> Balanced(Apply(Apply(s, at, e), last, Schedule(user, s.markers[user].session)), user)
  {
    hide Apply, Activated, Scheduled;
    var s1 := Apply(s, at, e);
    Appended(s, at, e, user);
    ClearUnmarks(s, at, e, user);
    if user in s.markers {
      var session := s.markers[user].session;
      Appended(s1, last, Schedule(user, session), user);
      MarkersStay(s1, last, Schedule(user, session), user);
      Swapped(Activated(s.log, user), Scheduled(s.log, user), session, session);
    }
  }

  lemma Steady(w: World)
    requires NoFaults(w.plan)
    ensures Turn(w).tables == w.tables && Turn(w).next == w.next && NoFaults(Turn(w).plan)
    ensures Ask(w) == Out(Turn(w), Ok(())) && Head(w.plan).kind.Done?
    ensures Draw(w) == Out(Turn(w).(next := w.next + 1), Ok(w.next))
    ensures Turn(w).clock <= Deadline(w)
  {
    if w.plan != [] {
      assert w.plan[0].kind.Done?;
    }
  }

  /** The world once the new session is stored and the replaced one is scheduled. */
  function Replaced(cfg: Config, w: World, who: Id, token: Id): Out<Id> {
    var expiresAt := w.clock + cfg.refreshTTL;
    var (w3, previous) :- ActivateAndReturnPrevious(w, who, token, cfg.refreshTTL);
    var (w4, _) :- CreateToken(w3, token, RefreshToken(who, expiresAt, false));
    Out(if previous.Some? then Note(w4, Schedule(who, previous.value)) else w4, Ok(token))
  }

  /** Without port failures, a session that replaces the user's marked one leaves the balance
      as it was exactly when no marker had lapsed by the time the new one was written. */
  lemma ReplaceBalances(cfg: Config, w: World, token: Id, user: Id)
    requires NoFaults(w.plan) && Balanced(w.tables, user) && user in w.tables.users
    ensures var o := Replaced(cfg, w, user, token);
            && NoFaults(o.w.plan)
            && (Balanced(o.w.tables, user) <==>
                  (user in w.tables.markers ==> Turn(w).clock <= w.tables.markers[user].expiresAt))
  {
    hide Turn, Ask, NoFaults, Balanced, Apply, Draw;
    Steady(w);
    var until := Turn(w).clock + cfg.refreshTTL;
    var o3 := ActivateAndReturnPrevious(w, user, token, cfg.refreshTTL);
    ActivateMarks(w.tables, Turn(w).clock, user, token, until);
    Steady(o3.w);
    var row := RefreshToken(user, w.clock + cfg.refreshTTL, false);
    ReplaceStep(w.tables, user, token, until, row, Turn(w).clock, Turn(o3.w).clock, Turn(o3.w).clock);
  }

  lemma OthersReplaceBalances(cfg: Config, w: World, who: Id, token: Id, user: Id)
    requires Fit(w, user) && who != user
    ensures Fit(Replaced(cfg, w, who, token).w, user)
  {
    hide Fit, Write, Note;
    var e := Activate(who, token, Turn(w).clock + cfg.refreshTTL);
    FitWrite(w, e, user);
    var o3 := ActivateAndReturnPrevious(w, who, token, cfg.refreshTTL);
    var row := RefreshToken(who, w.clock + cfg.refreshTTL, false);
    FitTurn(o3.w, user);
    FitWrite(o3.w, AddToken(token, row), user);
    var o4 := CreateToken(o3.w, token, row);
    if o3.r.Ok? && o3.r.value.Some? {
      FitWrite(o4.w, Schedule(who, o3.r.value.value), user);
    }
  }

  lemma IssueBalances(cfg: Config, w: World, who: Id, user: Id)
    requires Fit(w, user) && who in w.tables.users
    ensures Balanced(IssueSession(cfg, w, who).w.tables, user) && NoFaults(IssueSession(cfg, w, who).w.plan)
  {
    hide Write, Draw, Turn, ActivateAndReturnPrevious, CreateToken, Apply, Note, Balanced, NoFaults;
    FitWrite(w, RevokeAll(who), user);
    RevokeKeepsUsers(w, who);
    var o1 := RevokeAllForUser(w, who);
    FitTurn(o1.w, user);
    var o2 := Draw(o1.w);
    FitTurn(o2.w, user);
    if who == user {
      ReplaceBalances(cfg, o2.w, o2.r.value, user);
    } else {
      OthersReplaceBalances(cfg, o2.w, who, o2.r.value, user);
    }
    Steady(Replaced(cfg, o2.w, who, o2.r.value).w);
  }

  lemma RevokeKeepsUsers(w: World, who: Id)
    ensures RevokeAllForUser(w, who).w.tables.users == w.tables.users
  {
  }

  // ----- calls that issue a session -----

  lemma BalancedUpdate(w: World, who: Id, row: CredentialRow, why: CredentialWrite, challenge: Id, user: Id)
    requires Balanced(w.tables, user)
    ensures Balanced(UpdateCredential(w, who, row, why).w.tables, user)
    ensures Balanced(ConsumeChallenge(w, challenge).w.tables, user)
  {
    hide Write, Turn, Balanced;
    BalancedWrite(w, WriteCredential(who, row, why), user);
    BalancedWrite(w, Consume(challenge), user);
  }

  lemma RotateBalances(cfg: Config, w: World, who: Id, raw: Id, user: Id)
    requires Fit(w, user) && who in w.tables.users
    ensures Balanced(Rotate(cfg, w, who, raw).w.tables, user)
  {
    hide Fit, Balanced, Write, Turn, IssueSession, Note, Apply;
    FitWrite(w, RevokeOne(raw), user);
    FitTurn(w, user);
    RevokeOneKeepsUsers(w, raw);
    var o1 := Revoke(w, raw);
    IssueBalances(cfg, o1.w, who, user);
    var o2 := IssueSession(cfg, o1.w, who);
    if o2.r.Ok? {
      BalancedWrite(o2.w, Deliver(o2.r.value.token, who, ViaRefresh(raw)), user);
    }
  }

  lemma RevokeOneKeepsUsers(w: World, raw: Id)
    ensures Revoke(w, raw).w.tables.users == w.tables.users
  {
  }

  lemma RefreshBalances(cfg: Config, w: World, raw: Id, user: Id)
    requires Fit(w, user)
    ensures Balanced(Refresh(cfg, w, raw).w.tables, user)
  {
    hide Write, Turn, Rotate, Balanced;
    FitTurn(w, user);
    var o1 := GetToken(w, raw);
    if o1.r.Ok? {
      var who := o1.r.value.user;
      FitWrite(o1.w, RevokeAll(who), user);
      FitTurn(o1.w, user);
      var o2 := GetUser(o1.w, who);
      FitWrite(o2.w, RevokeAll(who), user);
      if o2.r.Ok? {
        RotateBalances(cfg, o2.w, who, raw, user);
      }
    }
  }

  lemma EnrolBalances(cfg: Config, w: World, who: Id, row: CredentialRow, token: Id, user: Id)
    requires Fit(w, user) && who in w.tables.users
    ensures Balanced(Enrol(cfg, w, who, row, token).w.tables, user)
  {
    hide Fit, Balanced, UpdateCredential, IssueSession, Note;
    IssueBalances(cfg, w, who, user);
    var o1 := IssueSession(cfg, w, who);
    BalancedUpdate(o1.w, who, row.AsEnabled(), Enrolled(token), 0, user);
    var o2 := UpdateCredential(o1.w, who, row.AsEnabled(), Enrolled(token));
    if o1.r.Ok? {
      BalancedWrite(o2.w, Deliver(o1.r.value.token, who, ViaSetup(token)), user);
    }
  }

  lemma AdmitBalances(cfg: Config, w: World, who: Id, challenge: Id, user: Id)
    requires Fit(w, user) && who in w.tables.users
    ensures Balanced(Admit(cfg, w, who, challenge).w.tables, user)
  {
    hide Fit, Balanced, ConsumeChallenge, UpdateCredential, IssueSession, Note;
    IssueBalances(cfg, w, who, user);
    var o1 := IssueSession(cfg, w, who);
    BalancedUpdate(o1.w, who, Credentials.NewRow(0, 0, 0), Started(0), challenge, user);
    var o2 := ConsumeChallenge(o1.w, challenge);
    if o1.r.Ok? {
      BalancedWrite(o2.w, Deliver(o1.r.value.token, who, ViaChallenge(challenge)), user);
    }
  }

  lemma FitImpliesBalanced(w: World, user: Id)
    requires Fit(w, user)
    ensures Balanced(w.tables, user)
  {
  }

  lemma SetupVerifyBalances(cfg: Config, w: World, token: Id, code: string, user: Id)
    requires Fit(w, user)
    ensures Balanced(SetupVerifyOTP(cfg, w, token, code).w.tables, user)
  {
    hide Fit, Turn, VerifyOTP, Enrol, Balanced, PassedFor;
    FitTurn(w, user);
    FitImpliesBalanced(w, user);
    var o1 := GetBySetupToken(w, token);
    if o1.r.Ok? {
      var who := o1.r.value;
      var row := o1.w.tables.credentials[who];
      FitTurn(o1.w, user);
      FitImpliesBalanced(o1.w, user);
      var o2 := GetUser(o1.w, who);
      if o2.r.Ok? {
        var email := o2.r.value.email;
        FitVerifyOTP(cfg, o2.w, email, who, row, code, ForSetup, user);
        VerifyOTPPasses(cfg, o2.w, email, who, row, code, ForSetup);
        var o3 := VerifyOTP(cfg, o2.w, email, who, row, code, ForSetup);
        FitImpliesBalanced(o3.w, user);
        if o3.r.Ok? {
          EnrolBalances(cfg, o3.w, who, o3.r.value, token, user);
        }
      }
    }
  }

  lemma LoginVerifyBalances(cfg: Config, w: World, challenge: Id, code: string, user: Id)
    requires Fit(w, user)
    ensures Balanced(LoginVerifyOTP(cfg, w, challenge, code).w.tables, user)
  {
    hide Fit, Turn, VerifyOTP, Admit, Balanced, PassedFor;
    FitTurn(w, user);
    FitImpliesBalanced(w, user);
    var o1 := GetChallenge(w, challenge);
    if o1.r.Ok? {
      var who := o1.r.value.user;
      FitTurn(o1.w, user);
      FitImpliesBalanced(o1.w, user);
      var o2 := GetCredential(o1.w, who);
      FitTurn(o2.w, user);
      var o3 := GetUser(o2.w, who);
      if o2.r.Ok? && o3.r.Ok? {
        var email, row := o3.r.value.email, o2.r.value;
        FitVerifyOTP(cfg, o3.w, email, who, row, code, ForLogin, user);
        VerifyOTPPasses(cfg, o3.w, email, who, row, code, ForLogin);
        var o4 := VerifyOTP(cfg, o3.w, email, who, row, code, ForLogin);
        FitImpliesBalanced(o4.w, user);
        if o4.r.Ok? {
          AdmitBalances(cfg, o4.w, who, challenge, user);
        }
      }
    }
  }

  // ----- calls that end a session -----

  lemma EndSessionBalances(w: World, who: Id, user: Id)
    requires Fit(w, user)
    ensures Balanced(EndSession(w, who).w.tables, user)
  {
    hide Balanced, Apply, NoFaults;
    FitTurn(w, user);
    var o := DeactivateAndReturnPrevious(w, who);
    if who == user {
      ClearStep(w.tables, user, ClearMarker(user), Turn(w).clock, Turn(w).clock);
    } else {
      FitWrite(w, ClearMarker(who), user);
      if o.r.Ok? && o.r.value.Some? {
        BalancedWrite(o.w, Schedule(who, o.r.value.value), user);
      }
    }
  }

  lemma LogoutBalances(w: World, raw: Id, user: Id)
    requires Fit(w, user) && Marked(w.tables)
    ensures Balanced(Logout(w, raw).w.tables, user)
  {
    hide Fit, Turn, Write, Note, Balanced;
    FitTurn(w, user);
    FitImpliesBalanced(w, user);
    var o1 := GetToken(w, raw);
    if o1.r.Ok? && !o1.r.value.revoked {
      assert Live(w.tables, raw);
      FitWrite(o1.w, RevokeOne(raw), user);
      var o2 := Revoke(o1.w, raw);
      RevokeOneKeepsMarkers(o1.w, raw);
      FinishLogout(o2.w, o1.r.value.user, raw, user);
    }
  }

  lemma RevokeOneKeepsMarkers(w: World, raw: Id)
    ensures Revoke(w, raw).w.tables.markers == w.tables.markers
  {
  }

  lemma FinishLogout(w: World, who: Id, raw: Id, user: Id)
    requires Fit(w, user)
    requires who in w.tables.markers && w.tables.markers[who].session == raw
    ensures var o := DeactivateIfCurrent(w, who, raw);
            o.r.Ok? && Balanced(Note(o.w, Schedule(who, raw)).tables, user)
  {
    hide Balanced, Apply, NoFaults;
    FitTurn(w, user);
    if who == user {
      ClearStep(w.tables, user, ClearMarkerIf(user, raw), Turn(w).clock, Turn(w).clock);
    } else {
      FitWrite(w, ClearMarkerIf(who, raw), user);
      BalancedWrite(DeactivateIfCurrent(w, who, raw).w, Schedule(who, raw), user);
    }
  }

  lemma FitUpdatePassword(w: World, who: Id, password: string, origin: PasswordChange, user: Id)
    requires Fit(w, user)
    ensures Fit(UpdatePassword(w, who, password, origin).w, user) && Fit(RevokeAllForUser(w, who).w, user)
  {
    hide Fit, Write;
    FitTurn(w, user);
    FitWrite(w, SetPassword(who, password, origin), user);
    FitWrite(w, RevokeAll(who), user);
  }

  lemma ChangePasswordBalances(cfg: Config, w: World, who: Id, current: string, code: string, newPassword: string,
                               user: Id)
    requires Fit(w, user)
    ensures Balanced(ChangePassword(cfg, w, who, current, code, newPassword).w.tables, user)
  {
    hide Fit, Turn, VerifyOTP, UpdatePassword, RevokeAllForUser, EndSession, Balanced;
    FitTurn(w, user);
    FitImpliesBalanced(w, user);
    var o1 := GetUser(w, who);
    if o1.r.Ok? && o1.r.value.password == current {
      FitTurn(o1.w, user);
      FitImpliesBalanced(o1.w, user);
      var o2 := GetCredential(o1.w, who);
      if o2.r.Ok? {
        FitVerifyOTP(cfg, o2.w, o1.r.value.email, who, o2.r.value, code, ForPasswordChange, user);
        var o3 := VerifyOTP(cfg, o2.w, o1.r.value.email, who, o2.r.value, code, ForPasswordChange);
        FitImpliesBalanced(o3.w, user);
        FitTurn(o3.w, user);
        var o4 := Ask(o3.w);
        KillSessions(o4.w, who, newPassword, ByOwner, user);
      }
    }
  }

  /** The tail shared by a password change and, apart from consuming the flow, a reset. */
  lemma KillSessions(w: World, who: Id, newPassword: string, origin: PasswordChange, user: Id)
    requires Fit(w, user)
    ensures var o5 := UpdatePassword(w, who, newPassword, origin);
            var o6 := RevokeAllForUser(o5.w, who);
            && Fit(o5.w, user) && Fit(o6.w, user)
            && Balanced(o5.w.tables, user) && Balanced(o6.w.tables, user)
            && Balanced(EndSession(o6.w, who).w.tables, user)
  {
    hide Fit, UpdatePassword, RevokeAllForUser, EndSession, Balanced;
    FitUpdatePassword(w, who, newPassword, origin, user);
    var o5 := UpdatePassword(w, who, newPassword, origin);
    FitUpdatePassword(o5.w, who, newPassword, origin, user);
    var o6 := RevokeAllForUser(o5.w, who);
    FitImpliesBalanced(o5.w, user);
    FitImpliesBalanced(o6.w, user);
    EndSessionBalances(o6.w, who, user);
  }

  lemma ConfirmResetBalances(w: World, token: Id, newPassword: string, user: Id)
    requires Fit(w, user)
    ensures Balanced(ConfirmPasswordReset(w, token, newPassword).w.tables, user)
  {
    hide Fit, Turn, UpdatePassword, UpdateFlow, RevokeAllForUser, EndSession, Balanced;
    FitTurn(w, user);
    FitImpliesBalanced(w, user);
    var o1 := GetByResetToken(w, token);
    if o1.r.Ok? && o1.w.tables.flows[o1.r.value].user.Some? {
      var flow := o1.r.value;
      var f := o1.w.tables.flows[flow];
      var who := f.user.value;
      FitTurn(o1.w, user);
      FitImpliesBalanced(o1.w, user);
      var o2 := Ask(o1.w);
      FitUpdatePassword(o2.w, who, newPassword, ByFlow(flow), user);
      var o3 := UpdatePassword(o2.w, who, newPassword, ByFlow(flow));
      FitImpliesBalanced(o3.w, user);
      FitUpdateFlow(o3.w, flow, f.AfterConsumed(), Spent, user);
      var o4 := UpdateFlow(o3.w, flow, f.AfterConsumed(), Spent);
      FitImpliesBalanced(o4.w, user);
      FitUpdatePassword(o4.w, who, newPassword, ByOwner, user);
      var o5 := RevokeAllForUser(o4.w, who);
      FitImpliesBalanced(o5.w, user);
      EndSessionBalances(o5.w, who, user);
    }
  }

  /** A deletion that is not carried through leaves the balance. One that is ends the session
      the marker names without scheduling it, so it keeps its user's balance exactly when there
      is no marker. */
  lemma DeleteAccountBalances(cfg: Config, w: World, who: Id, code: string, user: Id)
    requires Fit(w, user)
    ensures var o := DeleteAccount(cfg, w, who, code);
            Balanced(o.w.tables, user) <==> who != user || o.r.Err? || user !in w.tables.markers
  {
    hide Fit, Turn, VerifyOTP, RequestDeletion, RevokeAllForUser, Write, Balanced;
    FitTurn(w, user);
    FitImpliesBalanced(w, user);
    var o1 := GetUser(w, who);
    FitTurn(o1.w, user);
    FitImpliesBalanced(o1.w, user);
    var o2 := GetCredential(o1.w, who);
    FitImpliesBalanced(o2.w, user);
    if o1.r.Ok? && o2.r.Ok? {
      FitVerifyOTP(cfg, o2.w, o1.r.value.email, who, o2.r.value, code, ForDeletion, user);
      MarkersSurvive(cfg, o2.w, o1.r.value.email, who, o2.r.value, code, ForDeletion);
      var o3 := VerifyOTP(cfg, o2.w, o1.r.value.email, who, o2.r.value, code, ForDeletion);
      FitImpliesBalanced(o3.w, user);
      FitRequestDeletion(o3.w, who, user);
      RequestKeepsMarkers(o3.w, who);
      var o4 := RequestDeletion(o3.w, who);
      FitImpliesBalanced(o4.w, user);
      FitUpdatePassword(o4.w, who, "", ByOwner, user);
      RequestKeepsMarkers(o4.w, who);
      var o5 := RevokeAllForUser(o4.w, who);
      FitImpliesBalanced(o5.w, user);
      DeactivateAnswers(o5.w, who, user);
    }
  }

  lemma MarkersSurvive(cfg: Config, w: World, email: string, who: Id, row: CredentialRow, code: string,
                       purpose: Purpose)
    ensures VerifyOTP(cfg, w, email, who, row, code, purpose).w.tables.markers == w.tables.markers
  {
    hide Totp.Matched, UsersAfter, TokensAfter, CredentialsAfter, ChallengesAfter, FlowsAfter, JobsAfter, Bound;
  }

  lemma RequestKeepsMarkers(w: World, who: Id)
    ensures RequestDeletion(w, who).w.tables.markers == w.tables.markers
    ensures RevokeAllForUser(w, who).w.tables.markers == w.tables.markers
  {
    hide UsersAfter, TokensAfter, CredentialsAfter, ChallengesAfter, FlowsAfter, JobsAfter, Bound;
  }

  lemma FitRequestDeletion(w: World, who: Id, user: Id)
    requires Fit(w, user)
    ensures Fit(RequestDeletion(w, who).w, user)
  {
    hide Fit, Write;
    FitTurn(w, user);
    FitWrite(w, AskDeletion(who), user);
  }

  lemma DeactivateAnswers(w: World, who: Id, user: Id)
    requires Fit(w, user)
    ensures var o := Deactivate(w, who);
            o.r.Ok? && (Balanced(o.w.tables, user) <==> who != user || user !in w.tables.markers)
  {
    hide Balanced, Apply;
    FitTurn(w, user);
    if who == user {
      ClearStep(w.tables, user, ClearMarker(user), Turn(w).clock, Turn(w).clock);
    } else {
      FitWrite(w, ClearMarker(who), user);
    }
  }

  lemma FitWorkerDelete(w: World, who: Id, user: Id)
    requires Fit(w, user)
    ensures Fit(WorkerDelete(w, who).w, user)
  {
    hide Fit, Write;
    FitWrite(w, DropUser(who), user);
  }

  // ----- every call, every calm run -----

  lemma PerformBalances(cfg: Config, w: World, request: Request, user: Id)
    requires Fit(w, user) && Marked(w.tables)
    requires request.DoDelete? && request.user == user ==> Perform(cfg, w, request).r.Err?
    ensures Balanced(Perform(cfg, w, request).w.tables, user)
  {
    hide Fit, Balanced, Marked, Register, Login, Refresh, Logout, DeleteAccount, SetupVerifyOTP, LoginVerifyOTP,
         ChangePassword,
         RequestPasswordReset, VerifyPasswordResetOTP, ConfirmPasswordReset, WorkerDelete;
    match request
    case DoRegister(email, password) =>
      FitRegister(cfg, w, email, password, user);
      FitImpliesBalanced(Register(cfg, w, email, password).w, user);
    case DoLogin(email, password) =>
      FitLogin(cfg, w, email, password, user);
      FitImpliesBalanced(Login(cfg, w, email, password).w, user);
    case DoRefresh(raw) => RefreshBalances(cfg, w, raw, user);
    case DoLogout(raw) => LogoutBalances(w, raw, user);
    case DoDelete(who, code) => DeleteAccountBalances(cfg, w, who, code, user);
    case DoSetupVerify(token, code) => SetupVerifyBalances(cfg, w, token, code, user);
    case DoLoginVerify(challenge, code) => LoginVerifyBalances(cfg, w, challenge, code, user);
    case DoChangePassword(who, current, code, newPassword) =>
      ChangePasswordBalances(cfg, w, who, current, code, newPassword, user);
    case DoRequestReset(email) =>
      FitRequestReset(cfg, w, email, user);
      FitImpliesBalanced(RequestPasswordReset(cfg, w, email).w, user);
    case DoVerifyReset(flow, code) =>
      FitVerifyReset(cfg, w, flow, code, user);
      FitImpliesBalanced(VerifyPasswordResetOTP(cfg, w, flow, code).w, user);
    case DoConfirmReset(token, newPassword) => ConfirmResetBalances(w, token, newPassword, user);
    case WorkerDeletes(who) =>
      FitWorkerDelete(w, who, user);
      FitImpliesBalanced(WorkerDelete(w, who).w, user);
  }

  /** No port fails, the user's marker does not lapse before a call ends, and no deletion of
      the user's account goes through. */
  ghost predicate Calm(cfg: Config, w: World, calls: seq<Call>, user: Id)
    decreases |calls|
  {
    calls != [] ==>
      var call := calls[0];
      var w1 := Enter(w, call);
      && NoFaults(call.plan)
      && (user in w1.tables.markers ==> Deadline(w1) <= w1.tables.markers[user].expiresAt)
      && (call.request.DoDelete? && call.request.user == user ==> Exec(cfg, w, call).r.Err?)
      && Calm(cfg, Exec(cfg, w, call).w, calls[1..], user)
  }

  lemma {:induction false} RunsBalance(cfg: Config, w: World, calls: seq<Call>, user: Id)
    requires WorldOk(cfg, [], w) && Balanced(w.tables, user) && Calm(cfg, w, calls, user)
    ensures Balanced(Run(cfg, w, calls).tables, user)
    decreases |calls|
  {
    hide Legal, Replay, Balanced, Perform, NoFaults, Deadline, Marked, Apply;
    if calls != [] {
      var w1 := Enter(w, calls[0]);
      EnterOk(cfg, [], w, calls[0]);
      AlwaysMarked(cfg, w1.tables.log);
      UntouchedStep(w.tables, Max(w.clock, calls[0].at), Begin, user);
      PerformBalances(cfg, w1, calls[0].request, user);
      ExecOk(cfg, [], w, calls[0]);
      RunsBalance(cfg, Exec(cfg, w, calls[0]).w, calls[1..], user);
    }
  }

  // ----- each session once -----

  ghost predicate ActivatedOnce(s: Tables, user: Id) {
    forall t: Id :: Activated(s.log, user)[t] <= (if t < s.top then 1 else 0)
  }

  lemma {:induction false} AlwaysActivatedOnce(cfg: Config, log: seq<Entry>, user: Id)
    requires Legal(cfg, log)
    ensures ActivatedOnce(Replay(log), user)
  {
    hide UsersAfter, TokensAfter, CredentialsAfter, ChallengesAfter, FlowsAfter, MarkersAfter, JobsAfter;
    if log != [] {
      var n := |log| - 1;
      AlwaysActivatedOnce(cfg, log[..n], user);
      Appended(Replay(log[..n]), log[n].at, log[n].what, user);
    }
  }

  /** In a calm run the sessions ever activated for a user are the disjoint union of the one
      the marker names and those scheduled for cleanup, each scheduled exactly once. */
  lemma EverySessionCleanedOnce(cfg: Config, calls: seq<Call>, user: Id, session: Id)
    requires Calm(cfg, START, calls, user)
    ensures var s := Run(cfg, START, calls).tables;
            && Activated(s.log, user) == Scheduled(s.log, user) + MarkedSession(s, user)
            && Activated(s.log, user)[session] <= 1
            && (session in Activated(s.log, user) <==>
                  (session in Scheduled(s.log, user)) != (user in s.markers && s.markers[user].session == session))
            && Scheduled(s.log, user)[session] <= 1
  {
    hide Legal, Replay, Run, Activated, Scheduled, Calm;
    StartOk(cfg);
    NothingYet(user);
    RunsBalance(cfg, START, calls, user);
    RunsAreLegal(cfg, [], START, calls);
    AlwaysActivatedOnce(cfg, Run(cfg, START, calls).tables.log, user);
  }

  lemma NothingYet(user: Id)
    ensures Balanced(EMPTY, user)
  {
  }
}
