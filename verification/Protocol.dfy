/** When the service performs which write. `Enabled` is the protocol: it says what holds
    of the tables and of the log just before each effect. A log is legal when every entry
    was enabled in the state its predecessors lead to; every prefix of a legal log is
    legal, so a property of legal logs holds after every micro-step of a run. */
module Protocol {
  import opened Basics
  import opened Credentials
  import opened ResetFlows
  import opened Store
  import opened AuthSpec
  import Repositories
  import Totp

  predicate NoLiveToken(s: Tables, user: Id) {
    forall t | t in s.tokens && s.tokens[t].user == user :: s.tokens[t].revoked
  }

  predicate IsActive(s: Tables, user: Id) {
    user in s.users && !s.users[user].deletionPending
  }

  predicate IsPass(e: Effect, user: Id) {
    e.WriteCredential? && e.user == user && e.why.Passed?
  }

  predicate PassedFor(log: seq<Entry>, user: Id, purpose: Purpose) {
    && log != []
    && var e := log[|log| - 1].what;
    IsPass(e, user) && e.why.purpose == purpose
  }

  /** The last write created a refresh token for the user, apart from noting the cleanup of
      the session it replaced. */
  predicate JustIssued(log: seq<Entry>, user: Id) {
    || (|log| >= 1 && CreatesTokenFor(log[|log| - 1].what, user))
    || (|log| >= 2 && log[|log| - 1].what.Schedule? && CreatesTokenFor(log[|log| - 2].what, user))
  }

  predicate CreatesTokenFor(e: Effect, user: Id) {
    e.AddToken? && e.row.user == user
  }

  predicate CreatesToken(e: Effect, token: Id) {
    e.AddToken? && e.token == token
  }

  predicate NeverCreated(log: seq<Entry>, token: Id) {
    forall i | 0 <= i < |log| :: !CreatesToken(log[i].what, token)
  }

  predicate OpensByOtp(e: Effect, user: Id) {
    IsPass(e, user) && (e.why.purpose.ForSetup? || e.why.purpose.ForLogin?)
  }

  /** What may open a session: an OTP accepted for setup or login, or the revocation of the
      user's own token that a refresh presented. */
  predicate OpensSession(s: Tables, e: Effect, user: Id) {
    || OpensByOtp(e, user)
    || (e.RevokeOne? && e.token in s.tokens && s.tokens[e.token].user == user)
  }

  /** The three writes before a token is created: its opening, the revocation of every older
      token, the activation of its marker. */
  predicate IssuePrelude(s: Tables, token: Id, user: Id) {
    var n := |s.log|;
    && n >= 3
    && s.log[n - 1].what.Activate? && s.log[n - 1].what.user == user && s.log[n - 1].what.token == token
    && s.log[n - 2].what == RevokeAll(user)
    && OpensSession(s, s.log[n - 3].what, user)
  }

  predicate InWindow(counter: nat, t: nat) {
    Totp.Step(t) <= counter <= Totp.Step(t) + Totp.FORWARD_SKEW
  }

  predicate CredentialWriteEnabled(cfg: Config, s: Tables, at: nat, user: Id, row: CredentialRow,
                                   why: CredentialWrite) {
    && (!why.Started? ==> user in s.credentials)
    && match why
       case Started(token) =>
         && user in s.users
         && s.top <= row.secret && s.top <= token && row.secret != token
         && row.setup.Some?
         && var expiresAt := row.setup.value.expiresAt;
         if user in s.credentials
         then !s.credentials[user].enabled && row == s.credentials[user].Restarted(row.secret, token, expiresAt)
         else row == Credentials.NewRow(row.secret, token, expiresAt)
       case Failed(failedAt) =>
         && s.last <= failedAt <= at
         && !s.credentials[user].IsLocked(failedAt)
         && row == s.credentials[user].AfterFailure(cfg.otpMaxAttempts, cfg.otpLockout, failedAt)
       case Passed(counter, checkedAt, demo, purpose) =>
         && s.last <= checkedAt <= at
         && !s.credentials[user].IsLocked(checkedAt)
         && row == s.credentials[user].AfterSuccess(counter)
         && (demo ==> counter == 0 && user in s.users && s.users[user].email == DEMO_EMAIL)
         && (!demo ==> InWindow(counter, checkedAt) && !s.credentials[user].IsCodeConsumed(counter))
         && (purpose.ForSetup? ==> s.credentials[user].setup.Some?)
       case UsedByReset(counter, usedAt) =>
         && s.last <= usedAt <= at
         && s.credentials[user].enabled
         && row == s.credentials[user].WithCodeUsed(counter)
         && InWindow(counter, usedAt) && !s.credentials[user].IsCodeConsumed(counter)
       case Enrolled(token) =>
         && Repositories.HoldsSetup(s.credentials[user], token)
         && row == s.credentials[user].AsEnabled()
         && JustIssued(s.log, user)
  }

  predicate OpenFlow(cfg: Config, s: Tables, flow: Id) {
    && flow in s.flows
    && !s.flows[flow].otpVerified && !s.flows[flow].consumed
    && !s.flows[flow].IsOTPLocked(cfg.resetFlowMaxAttempts)
  }

  predicate FlowWriteEnabled(cfg: Config, s: Tables, flow: Id, row: FlowRow, why: FlowWrite) {
    match why
    case Missed => OpenFlow(cfg, s, flow) && row == s.flows[flow].AfterFailure()
    case Verified(token) =>
      && OpenFlow(cfg, s, flow)
      && s.top <= token
      && row.reset.Some? && row == s.flows[flow].AfterVerified(token, row.reset.value.expiresAt)
      && s.flows[flow].user.Some?
      && var user := s.flows[flow].user.value;
      || (user in s.users && s.users[user].email == DEMO_EMAIL)
      || (s.log != [] && IsResetUse(s.log[|s.log| - 1].what, user))
    case Spent =>
      && flow in s.flows
      && s.flows[flow].otpVerified && !s.flows[flow].consumed
      && row == s.flows[flow].AfterConsumed()
      && s.log != []
      && IsResetBy(s.log[|s.log| - 1].what, flow)
  }

  predicate IsResetUse(e: Effect, user: Id) {
    e.WriteCredential? && e.user == user && e.why.UsedByReset?
  }

  predicate IsResetBy(e: Effect, flow: Id) {
    e.SetPassword? && e.origin == ByFlow(flow)
  }

  predicate DeliverEnabled(s: Tables, token: Id, user: Id, via: Via) {
    && token in s.tokens && s.tokens[token].user == user && !s.tokens[token].revoked
    && IsActive(s, user)
    && var n := |s.log|;
    match via
    case ViaSetup(k) =>
      && n >= 1
      && s.log[n - 1].what.WriteCredential? && s.log[n - 1].what.user == user
      && s.log[n - 1].what.why == Enrolled(k)
    case ViaChallenge(c) =>
      && n >= 1
      && s.log[n - 1].what == Consume(c)
      && c in s.challenges && s.challenges[c].user == user
    case ViaRefresh(parent) =>
      || RotatedLast(s.log, parent, token)
      || (n >= 1 && s.log[n - 1].what.Schedule? && RotatedLast(s.log[..n - 1], parent, token))
  }

  /** The log ends with the rotation of parent into token. */
  predicate RotatedLast(log: seq<Entry>, parent: Id, token: Id) {
    var n := |log|;
    && n >= 4
    && log[n - 1].what.AddToken? && log[n - 1].what.token == token
    && log[n - 4].what == RevokeOne(parent)
  }

  predicate Enabled(cfg: Config, s: Tables, at: nat, e: Effect) {
    && s.last <= at
    && match e
       case Begin => true
       case AddUser(u, email, _) => s.top <= u && forall v | v in s.users :: s.users[v].email != email
       case SetPassword(u, _, ByOwner) => u in s.users && PassedFor(s.log, u, ForPasswordChange)
       case SetPassword(u, _, ByFlow(f)) =>
         u in s.users && f in s.flows && s.flows[f].user == Some(u) && s.flows[f].otpVerified && !s.flows[f].consumed
       case DropUser(u) => u in s.users && s.users[u].deletionPending
       case AskDeletion(u) => IsActive(s, u) && PassedFor(s.log, u, ForDeletion)
       case WriteCredential(u, row, why) => CredentialWriteEnabled(cfg, s, at, u, row, why)
       case RevokeOne(t) => t in s.tokens && !s.tokens[t].revoked
       case RevokeAll(_) => true
       case Activate(u, t, _) =>
         && IsActive(s, u) && s.top <= t && NoLiveToken(s, u)
         && s.log != [] && s.log[|s.log| - 1].what == RevokeAll(u)
       case AddToken(t, row) =>
         && NeverCreated(s.log, t) && t !in s.tokens && !row.revoked
         && IsActive(s, row.user) && NoLiveToken(s, row.user)
         && row.user in s.markers && s.markers[row.user].session == t
         && row.expiresAt <= s.markers[row.user].expiresAt
         && IssuePrelude(s, t, row.user)
       case ClearMarker(u) => NoLiveToken(s, u)
       case ClearMarkerIf(u, t) => t in s.tokens && s.tokens[t].user == u && s.tokens[t].revoked
       case AddChallenge(c, row) =>
         && s.top <= c && !row.consumed && row.user in s.users
         && row.user in s.credentials && s.credentials[row.user].enabled
       case Consume(c) =>
         c in s.challenges && !s.challenges[c].consumed && JustIssued(s.log, s.challenges[c].user)
       case AddFlow(f, row) =>
         && s.top <= f && row == ResetFlows.NewRow(row.user, row.expiresAt)
         && (row.user.Some? ==>
               && row.user.value in s.users
               && row.user.value in s.credentials && s.credentials[row.user.value].enabled)
       case WriteFlow(f, row, why) => FlowWriteEnabled(cfg, s, f, row, why)
       case Schedule(_, _) => true
       case Deliver(t, u, via) => DeliverEnabled(s, t, u, via)
  }

  /** The tables that a log leads to from the empty database. */
  function Replay(log: seq<Entry>): Tables {
    if log == [] then EMPTY
    else
      var n := |log| - 1;
      Apply(Replay(log[..n]), log[n].at, log[n].what)
  }

  ghost predicate Legal(cfg: Config, log: seq<Entry>) {
    log != [] ==>
      var n := |log| - 1;
      Legal(cfg, log[..n]) && Enabled(cfg, Replay(log[..n]), log[n].at, log[n].what)
  }

  /** The tables are those of a legal log that extends `base`, the clock is not behind it,
      and the supply of identifiers is ahead of it. */
  ghost predicate WorldOk(cfg: Config, base: seq<Entry>, w: World) {
    && base <= w.tables.log
    && Legal(cfg, w.tables.log)
    && w.tables == Replay(w.tables.log)
    && w.tables.last <= w.clock
    && w.tables.top <= w.next
  }

  // ----- basic facts -----

  lemma ApplyAppends(s: Tables, at: nat, e: Effect)
    ensures Apply(s, at, e).log == s.log + [Entry(at, e)] && Apply(s, at, e).last == at
  {
  }

  lemma {:induction false} ReplayKeepsLog(log: seq<Entry>)
    ensures Replay(log).log == log
  {
    hide Apply;
    if log != [] {
      var n := |log| - 1;
      ReplayKeepsLog(log[..n]);
      ApplyAppends(Replay(log[..n]), log[n].at, log[n].what);
    }
  }

  /** Every prefix of a legal log is legal. */
  lemma {:induction false} PrefixLegal(cfg: Config, log: seq<Entry>, k: nat)
    requires Legal(cfg, log) && k <= |log|
    ensures Legal(cfg, log[..k])
  {
    hide Enabled, Apply;
    if k == |log| {
      assert log[..k] == log;
    } else {
      var n := |log| - 1;
      PrefixLegal(cfg, log[..n], k);
      assert log[..n][..k] == log[..k];
    }
  }

  /** The entry at position k was enabled in the state just before it. */
  lemma EntryEnabled(cfg: Config, log: seq<Entry>, k: nat)
    requires Legal(cfg, log) && k < |log|
    ensures Legal(cfg, log[..k])
    ensures Enabled(cfg, Replay(log[..k]), log[k].at, log[k].what)
    ensures Replay(log[..k + 1]) == Apply(Replay(log[..k]), log[k].at, log[k].what)
    ensures Replay(log[..k]).log == log[..k]
  {
    hide Enabled, Apply;
    PrefixLegal(cfg, log, k + 1);
    assert log[..k + 1][..k] == log[..k];
    ReplayKeepsLog(log[..k]);
  }

  lemma NoteOk(cfg: Config, base: seq<Entry>, w: World, e: Effect)
    requires WorldOk(cfg, base, w)
    requires Enabled(cfg, w.tables, w.clock, e) && Bound(e) <= w.next
    ensures WorldOk(cfg, base, Note(w, e))
  {
    hide Enabled, UsersAfter, TokensAfter, CredentialsAfter, ChallengesAfter, FlowsAfter, MarkersAfter, JobsAfter;
    var log := Note(w, e).tables.log;
    assert log[..|log| - 1] == w.tables.log;
  }

  /** A port call keeps the world legal when the write it performs is enabled. */
  lemma WriteOk(cfg: Config, base: seq<Entry>, w: World, e: Effect)
    requires WorldOk(cfg, base, w)
    requires Enabled(cfg, w.tables, Turn(w).clock, e) && Bound(e) <= w.next
    ensures var o := Write(w, e);
            && WorldOk(cfg, base, o.w) && o.w.next == w.next && w.clock <= o.w.clock
            && (o.r.Ok? ==> o.w.tables == Apply(w.tables, Turn(w).clock, e))
  {
    hide Enabled, Legal, Replay, Apply;
    NoteOk(cfg, base, Turn(w), e);
  }

  /** A legal world's log extends itself. */
  lemma Rebased(cfg: Config, w: World)
    requires WorldOk(cfg, [], w)
    ensures WorldOk(cfg, w.tables.log, w)
  {
    hide Legal, Replay;
  }

  lemma AskOk(cfg: Config, base: seq<Entry>, w: World)
    requires WorldOk(cfg, base, w)
    ensures WorldOk(cfg, base, Turn(w))
    ensures Turn(w).tables == w.tables && Turn(w).next == w.next && w.clock <= Turn(w).clock
    ensures w.tables.last <= w.clock && w.tables.top <= w.next
  {
    hide Legal, Replay;
  }

  lemma DrawOk(cfg: Config, base: seq<Entry>, w: World)
    requires WorldOk(cfg, base, w)
    ensures var o := Draw(w);
            && WorldOk(cfg, base, o.w) && o.w.tables == w.tables && w.clock <= o.w.clock
            && (o.r.Ok? ==> w.tables.top <= o.r.value < o.w.next && o.r.value == w.next)
  {
    hide Legal, Replay;
  }
}
