/** Every use case follows the protocol: from a world with a legal log, every call, under
    every plan of port answers, leads to a world with a legal log. */
module Conformance {
  import opened Basics
  import opened Credentials
  import opened ResetFlows
  import opened Store
  import opened Repositories
  import opened AuthSpec
  import opened Protocol
  import opened Structure
  import Totp

  // ----- the OTP gate -----

  lemma ValidateOTPOk(cfg: Config, base: seq<Entry>, w: World, email: string, row: CredentialRow, code: string)
    requires WorldOk(cfg, base, w)
    ensures var o := ValidateOTP(cfg, w, email, row, code);
            && WorldOk(cfg, base, o.w) && o.w.tables == w.tables && w.clock <= o.w.clock && o.w.next == w.next
            && (o.r.Ok? && o.r.value.ok && !o.r.value.demo ==> InWindow(o.r.value.counter, o.w.clock))
            && (o.r.Ok? && o.r.value.demo ==> o.r.value.counter == 0 && email == DEMO_EMAIL)
  {
    hide WorldOk;
    AskOk(cfg, base, w);
  }

  lemma VerifyOTPOk(cfg: Config, base: seq<Entry>, w: World, email: string, user: Id, row: CredentialRow,
                    code: string, purpose: Purpose)
    requires WorldOk(cfg, base, w)
    requires user in w.tables.users && w.tables.users[user].email == email
    requires user in w.tables.credentials && w.tables.credentials[user] == row
    requires purpose.ForSetup? ==> row.setup.Some?
    ensures WorldOk(cfg, base, VerifyOTP(cfg, w, email, user, row, code, purpose).w)
  {
    hide WorldOk, Write, ValidateOTP, InWindow;
    AskOk(cfg, base, w);
    if !row.IsLocked(w.clock) {
      var o1 := ValidateOTP(cfg, w, email, row, code);
      ValidateOTPOk(cfg, base, w, email, row, code);
      AskOk(cfg, base, o1.w);
      if o1.r.Ok? {
        var v := o1.r.value;
        if Accepts(row, v) {
          WriteOk(cfg, base, o1.w, WriteCredential(user, row.AfterSuccess(v.counter),
                                             Passed(v.counter, o1.w.clock, v.demo, purpose)));
        } else {
          WriteOk(cfg, base, o1.w, WriteCredential(user,
                                                   row.AfterFailure(cfg.otpMaxAttempts, cfg.otpLockout, o1.w.clock),
                                             Failed(o1.w.clock)));
        }
      }
    }
  }

  /** On success the credential row is the only row changed, and the log ends with the pass. */
  lemma VerifyOTPPasses(cfg: Config, w: World, email: string, user: Id, row: CredentialRow, code: string,
                        purpose: Purpose)
    requires user in w.tables.credentials && w.tables.credentials[user] == row
    ensures var o := VerifyOTP(cfg, w, email, user, row, code, purpose);
            o.r.Ok? ==>
              && PassedFor(o.w.tables.log, user, purpose)
              && o.w.tables.users == w.tables.users && o.w.tables.tokens == w.tables.tokens
              && o.w.tables.challenges == w.tables.challenges
              && o.w.tables.credentials == w.tables.credentials[user := o.r.value]
              && o.r.value.setup == row.setup
  {
    hide Totp.Matched;
  }

  // ----- issuing a session -----

  /** The log ends with the issue of a token that started from `opening`. */
  predicate IssuedFrom(log: seq<Entry>, token: Id, opening: Effect) {
    var n := |log|;
    || (n >= 4 && CreatesToken(log[n - 1].what, token) && log[n - 4].what == opening)
    || (n >= 5 && log[n - 1].what.Schedule? && CreatesToken(log[n - 2].what, token) && log[n - 5].what == opening)
  }

  /** The tables once the prelude of an issue has run: nothing but the user's tokens and
      marker changed. */
  predicate Primed(s: Tables, s0: Tables, user: Id, token: Id, expiresAt: int) {
    && s.users == s0.users && s.credentials == s0.credentials && s.challenges == s0.challenges
    && s.tokens == RevokedFor(s0.tokens, user)
    && user in s.markers && s.markers[user] == Marker(token, expiresAt)
    && |s.log| == |s0.log| + 2
    && s.log[..|s0.log|] == s0.log
    && s.log[|s0.log|].what == RevokeAll(user)
    && s.log[|s0.log| + 1].what == Activate(user, token, expiresAt)
  }

  lemma PrimeOk(cfg: Config, base: seq<Entry>, w: World, w1: World, user: Id, token: Id, at: nat)
    requires WorldOk(cfg, base, w1) && IsActive(w.tables, user)
    requires w1.tables == Apply(w.tables, at, RevokeAll(user))
    requires w1.tables.top <= token < w1.next
    ensures var o := ActivateAndReturnPrevious(w1, user, token, cfg.refreshTTL);
            && WorldOk(cfg, base, o.w) && o.w.next == w1.next && w1.clock <= o.w.clock
            && (o.r.Ok? ==> Primed(o.w.tables, w.tables, user, token, Turn(w1).clock + cfg.refreshTTL))
  {
    hide WorldOk, Write;
    AskOk(cfg, base, w1);
    var e := Activate(user, token, Turn(w1).clock + cfg.refreshTTL);
    WriteOk(cfg, base, w1, e);
    var o := Write(w1, e);
    if o.r.Ok? {
      var log := o.w.tables.log;
      assert log[|log| - 1].what == e && log[..|log| - 1] == w1.tables.log;
    }
  }

  lemma CreateTokenOk(cfg: Config, base: seq<Entry>, w: World, s0: Tables, user: Id, token: Id, expiresAt: int,
                      markedUntil: int)
    requires WorldOk(cfg, base, w) && IsActive(s0, user)
    requires s0.log != [] && OpensSession(s0, s0.log[|s0.log| - 1].what, user)
    requires Primed(w.tables, s0, user, token, markedUntil)
    requires token !in w.tables.tokens && NeverCreated(w.tables.log, token) && expiresAt <= markedUntil
    ensures var row := RefreshToken(user, expiresAt, false);
            var o := CreateToken(w, token, row);
            && WorldOk(cfg, base, o.w) && o.w.next == w.next
            && (o.r.Ok? ==> o.w.tables == Apply(w.tables, Turn(w).clock, AddToken(token, row)))
  {
    hide WorldOk, Write, Turn;
    AskOk(cfg, base, w);
    var log := w.tables.log;
    assert log[|s0.log| - 1] == s0.log[|s0.log| - 1];
    assert IssuePrelude(w.tables, token, user);
    WriteOk(cfg, base, w, AddToken(token, RefreshToken(user, expiresAt, false)));
  }

  lemma FreshToken(cfg: Config, base: seq<Entry>, w: World, w1: World, w2: World, user: Id, token: Id, expiresAt: int)
    requires WorldOk(cfg, base, w) && token >= w.tables.top
    requires Primed(w2.tables, w.tables, user, token, expiresAt)
    ensures token !in w2.tables.tokens && NeverCreated(w2.tables.log, token)
  {
    hide Legal, Replay;
    Structural(cfg, w.tables.log);
    var n := |w.tables.log|;
    assert forall i | 0 <= i < n :: w2.tables.log[i] == w2.tables.log[..n][i];
  }

  /** What a successful issue leaves behind: a live token for the user, and a log that ends
      with the issue. */
  predicate Gives(s: Tables, s0: Tables, user: Id, token: Id) {
    && token in s.tokens && s.tokens[token].user == user && !s.tokens[token].revoked
    && s.users == s0.users && s.credentials == s0.credentials && s.challenges == s0.challenges
    && JustIssued(s.log, user)
    && s0.log != [] && IssuedFrom(s.log, token, s0.log[|s0.log| - 1].what)
  }

  lemma TokenGives(s: Tables, s0: Tables, user: Id, row: RefreshToken, token: Id, markedUntil: int, at: nat,
                   previous: Id, later: nat)
    requires Primed(s, s0, user, token, markedUntil) && s0.log != []
    requires row.user == user && !row.revoked
    ensures Gives(Apply(s, at, AddToken(token, row)), s0, user, token)
    ensures Gives(Apply(Apply(s, at, AddToken(token, row)), later, Schedule(user, previous)), s0, user, token)
  {
    assert s.log[|s0.log| - 1] == s0.log[|s0.log| - 1];
  }

  lemma IssueSessionOk(cfg: Config, base: seq<Entry>, w: World, user: Id)
    requires WorldOk(cfg, base, w) && IsActive(w.tables, user)
    requires w.tables.log != [] && OpensSession(w.tables, w.tables.log[|w.tables.log| - 1].what, user)
    ensures var o := IssueSession(cfg, w, user);
            && WorldOk(cfg, base, o.w)
            && (o.r.Ok? ==> o.r.value.Session? && Gives(o.w.tables, w.tables, user, o.r.value.token))
  {
    hide WorldOk, Write, Draw, CreateToken, ActivateAndReturnPrevious, Apply, Primed, Gives, IsActive, OpensSession,
         LiveMarker, NeverCreated;
    AskOk(cfg, base, w);
    WriteOk(cfg, base, w, RevokeAll(user));
    var o1 := RevokeAllForUser(w, user);
    if o1.r.Ok? {
      var o2 := Draw(o1.w);
      DrawOk(cfg, base, o1.w);
      if o2.r.Ok? {
        var token := o2.r.value;
        var until := Turn(o2.w).clock + cfg.refreshTTL;
        var o3 := ActivateAndReturnPrevious(o2.w, user, token, cfg.refreshTTL);
        PrimeOk(cfg, base, w, o2.w, user, token, Turn(w).clock);
        AskOk(cfg, base, o2.w);
        if o3.r.Ok? {
          FreshToken(cfg, base, w, o2.w, o3.w, user, token, until);
          var row := RefreshToken(user, o2.w.clock + cfg.refreshTTL, false);
          var o4 := CreateToken(o3.w, token, row);
          CreateTokenOk(cfg, base, o3.w, w.tables, user, token, row.expiresAt, until);
          if o4.r.Ok? {
            AskOk(cfg, base, o4.w);
            TokenGives(o3.w.tables, w.tables, user, row, token, until, Turn(o3.w).clock,
                       if o3.r.value.Some? then o3.r.value.value else 0, o4.w.clock);
            if o3.r.value.Some? {
              NoteOk(cfg, base, o4.w, Schedule(user, o3.r.value.value));
              AskOk(cfg, base, Note(o4.w, Schedule(user, o3.r.value.value)));
            }
          }
        }
      }
    }
  }

  // ----- refresh and logout -----

  lemma RefreshOk(cfg: Config, base: seq<Entry>, w: World, raw: Id)
    requires WorldOk(cfg, base, w)
    ensures WorldOk(cfg, base, Refresh(cfg, w, raw).w)
  {
    hide WorldOk, Write, Turn, Rotate, Apply;
    AskOk(cfg, base, w);
    var o1 := GetToken(w, raw).NotFoundAs(InvalidRefreshToken);
    if o1.r.Ok? {
      var rt := o1.r.value;
      AskOk(cfg, base, o1.w);
      if rt.revoked {
        WriteOk(cfg, base, o1.w, RevokeAll(rt.user));
      } else if !rt.IsExpired(o1.w.clock) {
        var o2 := GetUser(o1.w, rt.user).AnyErrorAs(InvalidRefreshToken);
        if o2.r.Ok? {
          AskOk(cfg, base, o2.w);
          if o2.r.value.deletionPending {
            WriteOk(cfg, base, o2.w, RevokeAll(rt.user));
          } else {
            RotateOk(cfg, base, o2.w, raw, rt);
          }
        }
      }
    }
  }

  lemma RotateOk(cfg: Config, base: seq<Entry>, w: World, raw: Id, rt: RefreshToken)
    requires WorldOk(cfg, base, w)
    requires raw in w.tables.tokens && w.tables.tokens[raw] == rt && !rt.revoked && IsActive(w.tables, rt.user)
    ensures WorldOk(cfg, base, Rotate(cfg, w, rt.user, raw).w)
  {
    hide WorldOk, Write, Turn, IssueSession;
    AskOk(cfg, base, w);
    WriteOk(cfg, base, w, RevokeOne(raw));
    var o3 := Revoke(w, raw);
    if o3.r.Ok? {
      var log := o3.w.tables.log;
      assert log[|log| - 1].what == RevokeOne(raw);
      IssueSessionOk(cfg, base, o3.w, rt.user);
      var o4 := IssueSession(cfg, o3.w, rt.user);
      if o4.r.Ok? {
        AskOk(cfg, base, o4.w);
        NoteOk(cfg, base, o4.w, Deliver(o4.r.value.token, rt.user, ViaRefresh(raw)));
      }
    }
  }

  lemma LogoutOk(cfg: Config, base: seq<Entry>, w: World, raw: Id)
    requires WorldOk(cfg, base, w)
    ensures WorldOk(cfg, base, Logout(w, raw).w)
  {
    hide WorldOk, Write, Turn;
    AskOk(cfg, base, w);
    var o1 := GetToken(w, raw);
    if o1.r.Ok? && !o1.r.value.revoked {
      var rt := o1.r.value;
      AskOk(cfg, base, o1.w);
      WriteOk(cfg, base, o1.w, RevokeOne(raw));
      var o2 := Revoke(o1.w, raw);
      if o2.r.Ok? {
        AskOk(cfg, base, o2.w);
        WriteOk(cfg, base, o2.w, ClearMarkerIf(rt.user, raw));
        var o3 := DeactivateIfCurrent(o2.w, rt.user, raw);
        AskOk(cfg, base, o3.w);
        NoteOk(cfg, base, o3.w, Schedule(rt.user, raw));
      }
    }
  }

  // ----- registration and login -----

  lemma StartSetupOk(cfg: Config, base: seq<Entry>, w: World, user: Id, secret: Id, token: Id)
    requires WorldOk(cfg, base, w) && user in w.tables.users
    requires user in w.tables.credentials ==> !w.tables.credentials[user].enabled
    requires w.tables.top <= secret < token < w.next
    ensures var expiresAt := w.clock + cfg.setupTokenTTL;
            if user in w.tables.credentials
            then WorldOk(cfg, base, UpdateCredential(w, user,
                    w.tables.credentials[user].Restarted(secret, token, expiresAt), Started(token)).w)
            else WorldOk(cfg, base, CreateCredential(w, user, Credentials.NewRow(secret, token, expiresAt), token).w)
  {
    hide WorldOk, Write, Turn;
    AskOk(cfg, base, w);
    var expiresAt := w.clock + cfg.setupTokenTTL;
    if user in w.tables.credentials {
      WriteOk(cfg, base, w, WriteCredential(user, w.tables.credentials[user].Restarted(secret, token, expiresAt),
                                            Started(token)));
    } else {
      WriteOk(cfg, base, w, WriteCredential(user, Credentials.NewRow(secret, token, expiresAt), Started(token)));
    }
  }

  lemma BeginTOTPSetupOk(cfg: Config, base: seq<Entry>, w: World, user: Id)
    requires WorldOk(cfg, base, w) && user in w.tables.users
    requires user in w.tables.credentials ==> !w.tables.credentials[user].enabled
    ensures WorldOk(cfg, base, BeginTOTPSetup(cfg, w, user).w)
  {
    hide WorldOk, Write, Turn, Draw, UpdateCredential, CreateCredential;
    var o1 := Draw(w);
    DrawOk(cfg, base, w);
    if o1.r.Ok? {
      var o2 := Ask(o1.w);
      AskOk(cfg, base, o1.w);
      if o2.r.Ok? {
        var o3 := Draw(o2.w);
        DrawOk(cfg, base, o2.w);
        if o3.r.Ok? {
          AskOk(cfg, base, o3.w);
          StartSetupOk(cfg, base, GetCredential(o3.w, user).w, user, o1.r.value, o3.r.value);
        }
      }
    }
  }

  lemma IssueLoginChallengeOk(cfg: Config, base: seq<Entry>, w: World, user: Id)
    requires WorldOk(cfg, base, w) && user in w.tables.users
    requires user in w.tables.credentials && w.tables.credentials[user].enabled
    ensures WorldOk(cfg, base, IssueLoginChallenge(cfg, w, user).w)
  {
    hide WorldOk, Write, Turn, Draw;
    var o1 := Draw(w);
    DrawOk(cfg, base, w);
    if o1.r.Ok? {
      AskOk(cfg, base, o1.w);
      WriteOk(cfg, base, o1.w, AddChallenge(o1.r.value,
                                            LoginChallenge(user, o1.w.clock + cfg.loginChallengeTTL, false)));
    }
  }

  lemma RegisterOk(cfg: Config, base: seq<Entry>, w: World, email: string, password: string)
    requires WorldOk(cfg, base, w)
    ensures WorldOk(cfg, base, Register(cfg, w, email, password).w)
  {
    hide WorldOk, Write, Turn, BeginTOTPSetup, CreateUser;
    AskOk(cfg, base, w);
    var o1 := Ask(w);
    if o1.r.Ok? {
      var user := o1.w.next;
      var w2 := o1.w.(next := user + 1);
      ReserveOk(cfg, base, o1.w);
      AddUserOk(cfg, base, w2, user, cfg.normalizeEmail(email), password);
      var o3 := CreateUser(w2, user, cfg.normalizeEmail(email), password);
      if o3.r.Ok? {
        BeginTOTPSetupOk(cfg, base, o3.w, user);
      }
    }
  }

  lemma ReserveOk(cfg: Config, base: seq<Entry>, w: World)
    requires WorldOk(cfg, base, w)
    ensures WorldOk(cfg, base, w.(next := w.next + 1))
  {
    hide Legal, Replay;
  }

  lemma AddUserOk(cfg: Config, base: seq<Entry>, w: World, user: Id, email: string, password: string)
    requires WorldOk(cfg, base, w) && w.tables.top <= user < w.next
    ensures var o := CreateUser(w, user, email, password);
            && WorldOk(cfg, base, o.w)
            && (o.r.Ok? ==> user in o.w.tables.users && user !in o.w.tables.credentials)
  {
    hide Legal, Replay, Write, Turn;
    AskOk(cfg, base, w);
    Structural(cfg, w.tables.log);
    if !exists u | u in w.tables.users :: w.tables.users[u].email == email {
      WriteOk(cfg, base, w, AddUser(user, email, password));
    }
  }

  lemma LoginOk(cfg: Config, base: seq<Entry>, w: World, email: string, password: string)
    requires WorldOk(cfg, base, w)
    ensures WorldOk(cfg, base, Login(cfg, w, email, password).w)
  {
    hide WorldOk, Write, Turn, BeginTOTPSetup, IssueLoginChallenge;
    AskOk(cfg, base, w);
    var o1 := GetUserByEmail(w, cfg.normalizeEmail(email)).NotFoundAs(InvalidCredentials);
    if o1.r.Ok? {
      var user := o1.r.value;
      AskOk(cfg, base, o1.w);
      var found := GetCredential(o1.w, user);
      if found.r.Ok? && found.r.value.enabled {
        IssueLoginChallengeOk(cfg, base, found.w, user);
      } else if found.r.Ok? || found.r.error == NotFound {
        BeginTOTPSetupOk(cfg, base, found.w, user);
      }
    }
  }

  lemma SetupVerifyOTPOk(cfg: Config, base: seq<Entry>, w: World, token: Id, code: string)
    requires WorldOk(cfg, base, w)
    ensures WorldOk(cfg, base, SetupVerifyOTP(cfg, w, token, code).w)
  {
    hide WorldOk, Write, Turn, Enrol, VerifyOTP, Apply, PassedFor;
    AskOk(cfg, base, w);
    var o1 := GetBySetupToken(w, token).NotFoundAs(SetupTokenInvalid);
    if o1.r.Ok? {
      var user := o1.r.value;
      var row := o1.w.tables.credentials[user];
      AskOk(cfg, base, o1.w);
      var o2 := GetUser(o1.w, user);
      if !row.IsSetupTokenExpired(o1.w.clock) && o2.r.Ok? {
        var u := o2.r.value;
        VerifyOTPOk(cfg, base, o2.w, u.email, user, row, code, ForSetup);
        VerifyOTPPasses(cfg, o2.w, u.email, user, row, code, ForSetup);
        var o3 := VerifyOTP(cfg, o2.w, u.email, user, row, code, ForSetup);
        if o3.r.Ok? && !u.deletionPending {
          EnrolOk(cfg, base, o3.w, user, o3.r.value, token);
        }
      }
    }
  }

  lemma EnrolOk(cfg: Config, base: seq<Entry>, w: World, user: Id, row: CredentialRow, token: Id)
    requires WorldOk(cfg, base, w) && IsActive(w.tables, user)
    requires PassedFor(w.tables.log, user, ForSetup)
    requires user in w.tables.credentials && w.tables.credentials[user] == row && HoldsSetup(row, token)
    ensures WorldOk(cfg, base, Enrol(cfg, w, user, row, token).w)
  {
    hide WorldOk, Write, Turn, IssueSession, IssuedFrom;
    IssueSessionOk(cfg, base, w, user);
    var o4 := IssueSession(cfg, w, user);
    if o4.r.Ok? {
      AskOk(cfg, base, o4.w);
      WriteOk(cfg, base, o4.w, WriteCredential(user, row.AsEnabled(), Enrolled(token)));
      var o5 := UpdateCredential(o4.w, user, row.AsEnabled(), Enrolled(token));
      if o5.r.Ok? {
        AskOk(cfg, base, o5.w);
        NoteOk(cfg, base, o5.w, Deliver(o4.r.value.token, user, ViaSetup(token)));
      }
    }
  }

  lemma LoginVerifyOTPOk(cfg: Config, base: seq<Entry>, w: World, challenge: Id, code: string)
    requires WorldOk(cfg, base, w)
    ensures WorldOk(cfg, base, LoginVerifyOTP(cfg, w, challenge, code).w)
  {
    hide WorldOk, Write, Turn, Admit, VerifyOTP, Apply, PassedFor;
    AskOk(cfg, base, w);
    var o1 := GetChallenge(w, challenge).NotFoundAs(ChallengeInvalid);
    if o1.r.Ok? && !o1.r.value.IsExpired(o1.w.clock) && !o1.r.value.consumed {
      var c := o1.r.value;
      AskOk(cfg, base, o1.w);
      var o2 := GetCredential(o1.w, c.user).NotFoundAs(ChallengeInvalid);
      if o2.r.Ok? {
        AskOk(cfg, base, o2.w);
        var o3 := GetUser(o2.w, c.user);
        if o3.r.Ok? {
          var u := o3.r.value;
          VerifyOTPOk(cfg, base, o3.w, u.email, c.user, o2.r.value, code, ForLogin);
          VerifyOTPPasses(cfg, o3.w, u.email, c.user, o2.r.value, code, ForLogin);
          var o4 := VerifyOTP(cfg, o3.w, u.email, c.user, o2.r.value, code, ForLogin);
          if o4.r.Ok? && !u.deletionPending {
            AdmitOk(cfg, base, o4.w, challenge, c);
          }
        }
      }
    }
  }

  lemma AdmitOk(cfg: Config, base: seq<Entry>, w: World, challenge: Id, c: LoginChallenge)
    requires WorldOk(cfg, base, w) && IsActive(w.tables, c.user)
    requires PassedFor(w.tables.log, c.user, ForLogin)
    requires challenge in w.tables.challenges && w.tables.challenges[challenge] == c && !c.consumed
    ensures WorldOk(cfg, base, Admit(cfg, w, c.user, challenge).w)
  {
    hide WorldOk, Write, Turn, IssueSession, IssuedFrom;
    IssueSessionOk(cfg, base, w, c.user);
    var o5 := IssueSession(cfg, w, c.user);
    if o5.r.Ok? {
      AskOk(cfg, base, o5.w);
      WriteOk(cfg, base, o5.w, Consume(challenge));
      var o6 := ConsumeChallenge(o5.w, challenge);
      if o6.r.Ok? {
        AskOk(cfg, base, o6.w);
        NoteOk(cfg, base, o6.w, Deliver(o5.r.value.token, c.user, ViaChallenge(challenge)));
      }
    }
  }

  // ----- changing a password, deleting an account -----

  lemma EndSessionOk(cfg: Config, base: seq<Entry>, w: World, user: Id)
    requires WorldOk(cfg, base, w) && NoLiveToken(w.tables, user)
    ensures WorldOk(cfg, base, EndSession(w, user).w)
  {
    hide WorldOk, Write, Turn, LiveMarker;
    AskOk(cfg, base, w);
    WriteOk(cfg, base, w, ClearMarker(user));
    var o := DeactivateAndReturnPrevious(w, user);
    if o.r.Ok? && o.r.value.Some? {
      AskOk(cfg, base, o.w);
      NoteOk(cfg, base, o.w, Schedule(user, o.r.value.value));
    }
  }

  lemma RevokeAllOk(cfg: Config, base: seq<Entry>, w: World, user: Id)
    requires WorldOk(cfg, base, w)
    ensures var o := RevokeAllForUser(w, user);
            WorldOk(cfg, base, o.w) && (o.r.Ok? ==> NoLiveToken(o.w.tables, user))
  {
    hide WorldOk, Write, Turn;
    AskOk(cfg, base, w);
    WriteOk(cfg, base, w, RevokeAll(user));
  }

  lemma ChangePasswordOk(cfg: Config, base: seq<Entry>, w: World, user: Id, current: string, code: string,
                         newPassword: string)
    requires WorldOk(cfg, base, w)
    ensures WorldOk(cfg, base, ChangePassword(cfg, w, user, current, code, newPassword).w)
  {
    hide WorldOk, Write, Turn, VerifyOTP, Apply, RevokeAllForUser, EndSession, NoLiveToken;
    AskOk(cfg, base, w);
    var o1 := GetUser(w, user);
    if o1.r.Ok? {
      var u := o1.r.value;
      AskOk(cfg, base, o1.w);
      var o2 := GetCredential(o1.w, user).NotFoundAs(OtpInvalid);
      if o2.r.Ok? {
        VerifyOTPOk(cfg, base, o2.w, u.email, user, o2.r.value, code, ForPasswordChange);
        VerifyOTPPasses(cfg, o2.w, u.email, user, o2.r.value, code, ForPasswordChange);
        var o3 := VerifyOTP(cfg, o2.w, u.email, user, o2.r.value, code, ForPasswordChange);
        if o3.r.Ok? {
          AskOk(cfg, base, o3.w);
          var o4 := Ask(o3.w);
          AskOk(cfg, base, o4.w);
          WriteOk(cfg, base, o4.w, SetPassword(user, newPassword, ByOwner));
          var o5 := UpdatePassword(o4.w, user, newPassword, ByOwner);
          RevokeAllOk(cfg, base, o5.w, user);
          var o6 := RevokeAllForUser(o5.w, user);
          if o6.r.Ok? {
            EndSessionOk(cfg, base, o6.w, user);
          }
        }
      }
    }
  }

  lemma RequestDeletionOk(cfg: Config, base: seq<Entry>, w: World, user: Id)
    requires WorldOk(cfg, base, w) && user in w.tables.users && PassedFor(w.tables.log, user, ForDeletion)
    ensures WorldOk(cfg, base, RequestDeletion(w, user).w)
  {
    hide WorldOk, Write, Turn, PassedFor;
    AskOk(cfg, base, w);
    if !w.tables.users[user].deletionPending {
      WriteOk(cfg, base, w, AskDeletion(user));
    }
  }

  lemma DeleteAccountOk(cfg: Config, base: seq<Entry>, w: World, user: Id, code: string)
    requires WorldOk(cfg, base, w)
    ensures WorldOk(cfg, base, DeleteAccount(cfg, w, user, code).w)
  {
    hide WorldOk, Write, Turn, VerifyOTP, Apply, RevokeAllForUser, RequestDeletion, NoLiveToken, PassedFor;
    AskOk(cfg, base, w);
    var o1 := GetUser(w, user);
    if o1.r.Ok? {
      var u := o1.r.value;
      AskOk(cfg, base, o1.w);
      var o2 := GetCredential(o1.w, user).NotFoundAs(OtpInvalid);
      if o2.r.Ok? {
        VerifyOTPOk(cfg, base, o2.w, u.email, user, o2.r.value, code, ForDeletion);
        VerifyOTPPasses(cfg, o2.w, u.email, user, o2.r.value, code, ForDeletion);
        var o3 := VerifyOTP(cfg, o2.w, u.email, user, o2.r.value, code, ForDeletion);
        if o3.r.Ok? {
          RequestDeletionOk(cfg, base, o3.w, user);
          var o4 := RequestDeletion(o3.w, user);
          RevokeAllOk(cfg, base, o4.w, user);
          var o5 := RevokeAllForUser(o4.w, user);
          if o5.r.Ok? {
            AskOk(cfg, base, o5.w);
            WriteOk(cfg, base, o5.w, ClearMarker(user));
          }
        }
      }
    }
  }

  // ----- password reset -----

  lemma StartFlowOk(cfg: Config, base: seq<Entry>, w: World, user: Option<Id>)
    requires WorldOk(cfg, base, w)
    requires user.Some? ==>
               && user.value in w.tables.users
               && user.value in w.tables.credentials && w.tables.credentials[user.value].enabled
    ensures WorldOk(cfg, base, StartFlow(cfg, w, user).w)
  {
    hide WorldOk, Write, Turn, Draw;
    var o1 := Draw(w);
    DrawOk(cfg, base, w);
    if o1.r.Ok? {
      AskOk(cfg, base, o1.w);
      WriteOk(cfg, base, o1.w, AddFlow(o1.r.value, ResetFlows.NewRow(user, o1.w.clock + cfg.resetFlowTTL)));
    }
  }

  lemma RequestPasswordResetOk(cfg: Config, base: seq<Entry>, w: World, email: string)
    requires WorldOk(cfg, base, w)
    ensures WorldOk(cfg, base, RequestPasswordReset(cfg, w, email).w)
  {
    hide WorldOk, Write, Turn, StartFlow;
    AskOk(cfg, base, w);
    var o1 := GetUserByEmail(w, cfg.normalizeEmail(email));
    if o1.r == Err(NotFound) {
      StartFlowOk(cfg, base, o1.w, None);
    } else if o1.r.Ok? {
      AskOk(cfg, base, o1.w);
      var cred := GetCredential(o1.w, o1.r.value);
      if cred.r.Ok? || cred.r.error == NotFound {
        StartFlowOk(cfg, base, cred.w, if cred.r.Ok? && cred.r.value.enabled then Some(o1.r.value) else None);
      }
    }
  }

  /** The log of a world in which a flow's code was just accepted ends with its use, unless
      the demo code was accepted. */
  predicate ResetCodeUsed(s: Tables, user: Id) {
    || (user in s.users && s.users[user].email == DEMO_EMAIL)
    || (s.log != [] && IsResetUse(s.log[|s.log| - 1].what, user))
  }

  lemma CheckResetCodeOk(cfg: Config, base: seq<Entry>, w: World, flow: FlowRow, code: string)
    requires WorldOk(cfg, base, w)
    ensures var o := CheckResetCode(cfg, w, flow, code);
            && WorldOk(cfg, base, o.w) && o.w.tables.flows == w.tables.flows
            && (o.r.Ok? && o.r.value ==> flow.user.Some? && ResetCodeUsed(o.w.tables, flow.user.value))
  {
    hide WorldOk, Write, Turn, ValidateOTP;
    if flow.user.Some? {
      var user := flow.user.value;
      AskOk(cfg, base, w);
      var cred := GetCredential(w, user);
      if cred.r.Ok? && cred.r.value.enabled {
        AskOk(cfg, base, cred.w);
        var o1 := GetUser(cred.w, user);
        if o1.r.Ok? {
          ValidateOTPOk(cfg, base, o1.w, o1.r.value.email, cred.r.value, code);
          var o2 := ValidateOTP(cfg, o1.w, o1.r.value.email, cred.r.value, code);
          if o2.r.Ok? && Accepts(cred.r.value, o2.r.value) && !o2.r.value.demo {
            UseCodeOk(cfg, base, o2.w, user, cred.r.value, o2.r.value.counter);
          }
        }
      }
    }
  }

  lemma UseCodeOk(cfg: Config, base: seq<Entry>, w: World, user: Id, row: CredentialRow, counter: nat)
    requires WorldOk(cfg, base, w)
    requires user in w.tables.credentials && w.tables.credentials[user] == row && row.enabled
    requires InWindow(counter, w.clock) && !row.IsCodeConsumed(counter)
    ensures var o := UpdateCredential(w, user, row.WithCodeUsed(counter), UsedByReset(counter, w.clock));
            && WorldOk(cfg, base, o.w) && o.w.tables.flows == w.tables.flows
            && (o.r.Ok? ==> ResetCodeUsed(o.w.tables, user))
  {
    hide WorldOk, Turn, InWindow, Legal, Replay;
    AskOk(cfg, base, w);
    WriteOk(cfg, base, w, WriteCredential(user, row.WithCodeUsed(counter), UsedByReset(counter, w.clock)));
  }

  lemma VerifyPasswordResetOTPOk(cfg: Config, base: seq<Entry>, w: World, flow: Id, code: string)
    requires WorldOk(cfg, base, w)
    ensures WorldOk(cfg, base, VerifyPasswordResetOTP(cfg, w, flow, code).w)
  {
    hide WorldOk, Write, Turn, Draw, CheckResetCode, ResetCodeUsed, UpdateFlow;
    AskOk(cfg, base, w);
    var o1 := GetFlow(w, flow).NotFoundAs(FlowInvalid);
    if o1.r.Ok? {
      var f := o1.r.value;
      if !f.IsExpired(o1.w.clock) && !f.consumed && !f.otpVerified && !f.IsOTPLocked(cfg.resetFlowMaxAttempts) {
        CheckResetCodeOk(cfg, base, o1.w, f, code);
        var o2 := CheckResetCode(cfg, o1.w, f, code);
        if o2.r.Ok? && !o2.r.value {
          MissOk(cfg, base, o2.w, flow, f);
        } else if o2.r.Ok? {
          DrawOk(cfg, base, o2.w);
          var o3 := Draw(o2.w);
          if o3.r.Ok? {
            OpenOk(cfg, base, o3.w, flow, f, o3.r.value, o3.w.clock + cfg.resetTokenTTL);
          }
        }
      }
    }
  }

  lemma MissOk(cfg: Config, base: seq<Entry>, w: World, flow: Id, f: FlowRow)
    requires WorldOk(cfg, base, w) && OpenFlow(cfg, w.tables, flow) && w.tables.flows[flow] == f
    ensures WorldOk(cfg, base, UpdateFlow(w, flow, f.AfterFailure(), Missed).w)
  {
    hide WorldOk, Write, Turn;
    AskOk(cfg, base, w);
    WriteOk(cfg, base, w, WriteFlow(flow, f.AfterFailure(), Missed));
  }

  lemma OpenOk(cfg: Config, base: seq<Entry>, w: World, flow: Id, f: FlowRow, token: Id, expiresAt: int)
    requires WorldOk(cfg, base, w) && OpenFlow(cfg, w.tables, flow) && w.tables.flows[flow] == f
    requires f.user.Some? && ResetCodeUsed(w.tables, f.user.value)
    requires w.tables.top <= token < w.next
    ensures WorldOk(cfg, base, UpdateFlow(w, flow, f.AfterVerified(token, expiresAt), Verified(token)).w)
  {
    hide WorldOk, Write, Turn;
    AskOk(cfg, base, w);
    WriteOk(cfg, base, w, WriteFlow(flow, f.AfterVerified(token, expiresAt), Verified(token)));
  }

  lemma ConfirmPasswordResetOk(cfg: Config, base: seq<Entry>, w: World, token: Id, newPassword: string)
    requires WorldOk(cfg, base, w)
    ensures WorldOk(cfg, base, ConfirmPasswordReset(w, token, newPassword).w)
  {
    hide WorldOk, Write, Turn, RevokeAllForUser, EndSession, NoLiveToken, UpdateFlow;
    AskOk(cfg, base, w);
    var o1 := GetByResetToken(w, token).NotFoundAs(ResetTokenInvalid);
    if o1.r.Ok? {
      var flow := o1.r.value;
      var f := o1.w.tables.flows[flow];
      AskOk(cfg, base, o1.w);
      var o2 := Ask(o1.w);
      if f.otpVerified && !f.consumed && f.user.Some? && f.user.value in o2.w.tables.users {
        SpendOk(cfg, base, o2.w, flow, f, newPassword);
        var o3 := UpdatePassword(o2.w, f.user.value, newPassword, ByFlow(flow));
        var o4 := UpdateFlow(o3.w, flow, f.AfterConsumed(), Spent);
        if o3.r.Ok? && o4.r.Ok? {
          RevokeAllOk(cfg, base, o4.w, f.user.value);
          var o5 := RevokeAllForUser(o4.w, f.user.value);
          if o5.r.Ok? {
            EndSessionOk(cfg, base, o5.w, f.user.value);
          }
        }
      } else {
        AskOk(cfg, base, o2.w);
      }
    }
  }

  lemma SpendOk(cfg: Config, base: seq<Entry>, w: World, flow: Id, f: FlowRow, newPassword: string)
    requires WorldOk(cfg, base, w)
    requires flow in w.tables.flows && w.tables.flows[flow] == f
    requires f.otpVerified && !f.consumed && f.user.Some? && f.user.value in w.tables.users
    ensures var o3 := UpdatePassword(w, f.user.value, newPassword, ByFlow(flow));
            && WorldOk(cfg, base, o3.w)
            && (o3.r.Ok? ==> WorldOk(cfg, base, UpdateFlow(o3.w, flow, f.AfterConsumed(), Spent).w))
  {
    hide WorldOk, Write, Turn;
    AskOk(cfg, base, w);
    WriteOk(cfg, base, w, SetPassword(f.user.value, newPassword, ByFlow(flow)));
    var o3 := UpdatePassword(w, f.user.value, newPassword, ByFlow(flow));
    if o3.r.Ok? {
      AskOk(cfg, base, o3.w);
      WriteOk(cfg, base, o3.w, WriteFlow(flow, f.AfterConsumed(), Spent));
    }
  }

  // ----- every call, every run -----

  lemma WorkerDeleteOk(cfg: Config, base: seq<Entry>, w: World, user: Id)
    requires WorldOk(cfg, base, w)
    ensures WorldOk(cfg, base, WorkerDelete(w, user).w)
  {
    hide WorldOk, Write, Turn;
    AskOk(cfg, base, w);
    if user in w.tables.users && w.tables.users[user].deletionPending {
      WriteOk(cfg, base, w, DropUser(user));
    }
  }

  lemma PerformOk(cfg: Config, base: seq<Entry>, w: World, request: Request)
    requires WorldOk(cfg, base, w)
    ensures WorldOk(cfg, base, Perform(cfg, w, request).w)
  {
    hide WorldOk, Register, Login, Refresh, Logout, DeleteAccount, SetupVerifyOTP, LoginVerifyOTP, ChangePassword,
         RequestPasswordReset, VerifyPasswordResetOTP, ConfirmPasswordReset, WorkerDelete;
    match request
    case DoRegister(email, password) => RegisterOk(cfg, base, w, email, password);
    case DoLogin(email, password) => LoginOk(cfg, base, w, email, password);
    case DoRefresh(raw) => RefreshOk(cfg, base, w, raw);
    case DoLogout(raw) => LogoutOk(cfg, base, w, raw);
    case DoDelete(user, code) => DeleteAccountOk(cfg, base, w, user, code);
    case DoSetupVerify(token, code) => SetupVerifyOTPOk(cfg, base, w, token, code);
    case DoLoginVerify(challenge, code) => LoginVerifyOTPOk(cfg, base, w, challenge, code);
    case DoChangePassword(user, current, code, newPassword) =>
      ChangePasswordOk(cfg, base, w, user, current, code, newPassword);
    case DoRequestReset(email) => RequestPasswordResetOk(cfg, base, w, email);
    case DoVerifyReset(flow, code) => VerifyPasswordResetOTPOk(cfg, base, w, flow, code);
    case DoConfirmReset(token, newPassword) => ConfirmPasswordResetOk(cfg, base, w, token, newPassword);
    case WorkerDeletes(user) => WorkerDeleteOk(cfg, base, w, user);
  }

  lemma EnterOk(cfg: Config, base: seq<Entry>, w: World, call: Call)
    requires WorldOk(cfg, base, w)
    ensures WorldOk(cfg, base, Enter(w, call))
  {
    hide Legal, Replay;
    NoteOk(cfg, base, w.(clock := Max(w.clock, call.at), plan := call.plan), Begin);
  }

  lemma ExecOk(cfg: Config, base: seq<Entry>, w: World, call: Call)
    requires WorldOk(cfg, base, w)
    ensures WorldOk(cfg, base, Exec(cfg, w, call).w)
  {
    hide WorldOk, Enter, Perform;
    EnterOk(cfg, base, w, call);
    PerformOk(cfg, base, Enter(w, call), call.request);
  }

  /** Every run follows the protocol, whatever its calls, times and port answers. */
  lemma {:induction false} RunsAreLegal(cfg: Config, base: seq<Entry>, w: World, calls: seq<Call>)
    requires WorldOk(cfg, base, w)
    ensures WorldOk(cfg, base, Run(cfg, w, calls))
    decreases |calls|
  {
    hide WorldOk, Exec;
    if calls != [] {
      ExecOk(cfg, base, w, calls[0]);
      RunsAreLegal(cfg, base, Exec(cfg, w, calls[0]).w, calls[1..]);
    }
  }

  lemma StartOk(cfg: Config)
    ensures WorldOk(cfg, [], START)
  {
  }
}
