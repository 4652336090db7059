/** Logouts racing each other and one issue of a session: every port call is a move of its
    own, moves of different calls interleave in any order, and each call may fail, with or
    without taking effect. */
module LogoutRace {
  import opened Basics
  import opened Store
  import opened Repositories
  import opened AuthSpec
  import opened Protocol
  import opened Conformance
  import opened Sessions
  import opened Structure

  /** How far a logout has come: nothing asked yet, its live token found, its token revoked,
      its session ended, or returned without getting that far. */
  datatype Stage = Presented | Found(user: Id) | Revoked(user: Id) | Ended(user: Id) | Gone

  /** How far the issue has come: older tokens revoked, marker activated (and which session
      it replaced), token stored, or stopped on the way. */
  datatype Issue = Ready | Killed | Active(previous: Option<Id>) | Stored | Over

  /** Logout i presents raws[i]; the issue is for `user` and draws the token `token`. */
  datatype Setting = Setting(raws: seq<Id>, user: Id, token: Id, expiresAt: int, ttl: int)

  datatype Race = Race(s: Tables, stages: seq<Stage>, issue: Issue)

  datatype Move = LogoutMove(i: nat, kind: Kind, at: nat) | IssueMove(kind: Kind, at: nat)

  /** A port call's effect on the tables. */
  function Written(s: Tables, kind: Kind, at: nat, e: Effect): Tables {
    if kind.Refused? then s else Apply(s, at, e)
  }

  function LogoutStep(s: Tables, raw: Id, stage: Stage, kind: Kind, at: nat): (Tables, Stage) {
    match stage
    case Presented =>
      if kind.Done? && raw in s.tokens && !s.tokens[raw].revoked then (s, Found(s.tokens[raw].user)) else (s, Gone)
    case Found(user) =>
      (if raw in s.tokens && !s.tokens[raw].revoked then Written(s, kind, at, RevokeOne(raw)) else s,
       if kind.Done? then Revoked(user) else Gone)
    case Revoked(user) =>
      var s1 := Written(s, kind, at, ClearMarkerIf(user, raw));
      if kind.Done? then (Apply(s1, at, Schedule(user, raw)), Ended(user)) else (s1, Gone)
    case _ => (s, stage)
  }

  function IssueStep(setting: Setting, s: Tables, issue: Issue, kind: Kind, at: nat): (Tables, Issue) {
    match issue
    case Ready => (Written(s, kind, at, RevokeAll(setting.user)), if kind.Done? then Killed else Over)
    case Killed =>
      var marker := if setting.user in s.markers then Some(s.markers[setting.user]) else None;
      var previous := if marker.Some? && marker.value.IsLive(at) then Some(marker.value.session) else None;
      (Written(s, kind, at, Activate(setting.user, setting.token, at + setting.ttl)),
       if kind.Done? then Active(previous) else Over)
    case Active(previous) =>
      if setting.user !in s.users then (s, Over)
      else
        var s1 := Written(s, kind, at, AddToken(setting.token, RefreshToken(setting.user, setting.expiresAt, false)));
        if !kind.Done? then (s1, Over)
        else (if previous.Some? then Apply(s1, at, Schedule(setting.user, previous.value)) else s1, Stored)
    case Stored => (s, issue)
    case _ => (s, Over)
  }

  function Moved(setting: Setting, r: Race, m: Move): Race
    requires |r.stages| == |setting.raws|
  {
    match m
    case LogoutMove(i, kind, at) =>
      if i < |r.stages| then
        var (s, stage) := LogoutStep(r.s, setting.raws[i], r.stages[i], kind, at);
        Race(s, r.stages[i := stage], r.issue)
      else r
    case IssueMove(kind, at) =>
      var (s, issue) := IssueStep(setting, r.s, r.issue, kind, at);
      Race(s, r.stages, issue)
  }

  function Raced(setting: Setting, s0: Tables, moves: seq<Move>): (r: Race)
    ensures |r.stages| == |setting.raws|
  {
    if moves == [] then Race(s0, seq(|setting.raws|, _ => Presented), Ready)
    else
      var n := |moves| - 1;
      Moved(setting, Raced(setting, s0, moves[..n]), moves[n])
  }

  // ----- a session that is not presented -----

  /** The issue has tried to revoke the user's older tokens. */
  predicate Begun(issue: Issue) {
    !issue.Ready?
  }

  /** What has become of a stored token that nobody presents: only the issue may have revoked
      it, and only if it is the user's. */
  predicate Spared(setting: Setting, s0: Tables, r: Race, t: Id)
    requires t in s0.tokens
  {
    && t in r.s.tokens
    && (r.s.tokens[t] == s0.tokens[t]
        || (Begun(r.issue) && s0.tokens[t].user == setting.user && r.s.tokens[t] == s0.tokens[t].(revoked := true)))
  }

  /** What has become of a marker whose session nobody presents: it stands, unless it is the
      user's and the issue has replaced it. */
  predicate Standing(setting: Setting, s0: Tables, r: Race, u: Id)
    requires u in s0.markers
  {
    && u in r.s.markers
    && (r.s.markers[u] == s0.markers[u]
        || (Begun(r.issue) && !r.issue.Killed? && u == setting.user && r.s.markers[u].session == setting.token))
  }

  lemma SparedLogout(raw: Id, s: Tables, stage: Stage, kind: Kind, at: nat, t: Id)
    requires t in s.tokens && t != raw
    ensures var s1 := LogoutStep(s, raw, stage, kind, at).0;
            t in s1.tokens && s1.tokens[t] == s.tokens[t]
  {
    hide UsersAfter, CredentialsAfter, ChallengesAfter, FlowsAfter, MarkersAfter, JobsAfter, Bound;
  }

  lemma SparedIssue(setting: Setting, s0: Tables, r: Race, kind: Kind, at: nat, t: Id)
    requires |r.stages| == |setting.raws| && t in s0.tokens && t != setting.token && Spared(setting, s0, r, t)
    ensures Spared(setting, s0, Moved(setting, r, IssueMove(kind, at)), t)
  {
    hide UsersAfter, CredentialsAfter, ChallengesAfter, FlowsAfter, MarkersAfter, JobsAfter, Bound;
  }

  lemma SparedStep(setting: Setting, s0: Tables, r: Race, m: Move, t: Id)
    requires |r.stages| == |setting.raws| && t in s0.tokens && t != setting.token && t !in setting.raws
    requires Spared(setting, s0, r, t)
    ensures Spared(setting, s0, Moved(setting, r, m), t)
  {
    hide LogoutStep, IssueStep;
    match m
    case LogoutMove(i, kind, at) =>
      if i < |r.stages| {
        assert setting.raws[i] in setting.raws;
        SparedLogout(setting.raws[i], r.s, r.stages[i], kind, at, t);
      }
    case IssueMove(kind, at) => SparedIssue(setting, s0, r, kind, at, t);
  }

  lemma StandingLogout(raw: Id, s: Tables, stage: Stage, kind: Kind, at: nat, u: Id)
    requires u in s.markers && s.markers[u].session != raw
    ensures var s1 := LogoutStep(s, raw, stage, kind, at).0;
            u in s1.markers && s1.markers[u] == s.markers[u]
  {
    hide UsersAfter, CredentialsAfter, ChallengesAfter, FlowsAfter, TokensAfter, JobsAfter, Bound;
  }

  lemma StandingIssue(setting: Setting, s0: Tables, r: Race, kind: Kind, at: nat, u: Id)
    requires |r.stages| == |setting.raws| && u in s0.markers && Standing(setting, s0, r, u)
    ensures Standing(setting, s0, Moved(setting, r, IssueMove(kind, at)), u)
  {
    hide UsersAfter, CredentialsAfter, ChallengesAfter, FlowsAfter, TokensAfter, JobsAfter, Bound;
  }

  lemma StandingStep(setting: Setting, s0: Tables, r: Race, m: Move, u: Id)
    requires |r.stages| == |setting.raws| && u in s0.markers
    requires s0.markers[u].session !in setting.raws && setting.token !in setting.raws
    requires Standing(setting, s0, r, u)
    ensures Standing(setting, s0, Moved(setting, r, m), u)
  {
    hide LogoutStep, IssueStep;
    match m
    case LogoutMove(i, kind, at) =>
      if i < |r.stages| {
        assert setting.raws[i] in setting.raws;
        StandingLogout(setting.raws[i], r.s, r.stages[i], kind, at, u);
      }
    case IssueMove(kind, at) => StandingIssue(setting, s0, r, kind, at, u);
  }

  /** Logouts never revoke a token other than the ones they present, whatever the order of
      the moves and whatever fails. */
  lemma {:induction false} OthersKeepTokens(setting: Setting, s0: Tables, moves: seq<Move>, t: Id)
    requires t in s0.tokens && t != setting.token && t !in setting.raws
    ensures Spared(setting, s0, Raced(setting, s0, moves), t)
  {
    hide Moved;
    if moves != [] {
      var n := |moves| - 1;
      OthersKeepTokens(setting, s0, moves[..n], t);
      SparedStep(setting, s0, Raced(setting, s0, moves[..n]), moves[n], t);
    }
  }

  /** Nor do they clear a marker that names a session nobody presents. */
  lemma {:induction false} OthersKeepMarkers(setting: Setting, s0: Tables, moves: seq<Move>, u: Id)
    requires u in s0.markers && s0.markers[u].session !in setting.raws && setting.token !in setting.raws
    ensures Standing(setting, s0, Raced(setting, s0, moves), u)
  {
    hide Moved;
    if moves != [] {
      var n := |moves| - 1;
      OthersKeepMarkers(setting, s0, moves[..n], u);
      StandingStep(setting, s0, Raced(setting, s0, moves[..n]), moves[n], u);
    }
  }

  // ----- the issued session -----

  /** From its activation on the new session is marked, and once stored it is live. */
  predicate Fresh(setting: Setting, r: Race) {
    && (r.issue.Ready? || r.issue.Killed? ==> setting.token !in r.s.tokens)
    && (r.issue.Active? || setting.token in r.s.tokens ==>
          setting.user in r.s.markers && r.s.markers[setting.user].session == setting.token)
    && (setting.token in r.s.tokens ==>
          !r.s.tokens[setting.token].revoked && r.s.tokens[setting.token].user == setting.user)
  }

  lemma FreshIssue(setting: Setting, r: Race, kind: Kind, at: nat)
    requires |r.stages| == |setting.raws| && Fresh(setting, r)
    ensures Fresh(setting, Moved(setting, r, IssueMove(kind, at)))
  {
    hide UsersAfter, CredentialsAfter, ChallengesAfter, FlowsAfter, JobsAfter, Bound;
  }

  /** A logout stores no token. */
  lemma LogoutStores(raw: Id, s: Tables, stage: Stage, kind: Kind, at: nat, t: Id)
    ensures t in LogoutStep(s, raw, stage, kind, at).0.tokens <==> t in s.tokens
  {
    hide UsersAfter, CredentialsAfter, ChallengesAfter, FlowsAfter, MarkersAfter, JobsAfter, Bound;
  }

  lemma FreshStep(setting: Setting, r: Race, m: Move)
    requires |r.stages| == |setting.raws| && setting.token !in setting.raws && Fresh(setting, r)
    ensures Fresh(setting, Moved(setting, r, m))
  {
    hide LogoutStep, IssueStep;
    match m
    case LogoutMove(i, kind, at) =>
      if i < |r.stages| {
        assert setting.raws[i] in setting.raws;
        LogoutStores(setting.raws[i], r.s, r.stages[i], kind, at, setting.token);
        if setting.token in r.s.tokens {
          SparedLogout(setting.raws[i], r.s, r.stages[i], kind, at, setting.token);
        }
        if setting.user in r.s.markers && r.s.markers[setting.user].session == setting.token {
          StandingLogout(setting.raws[i], r.s, r.stages[i], kind, at, setting.user);
        }
      }
    case IssueMove(kind, at) => FreshIssue(setting, r, kind, at);
  }

  /** Whatever older tokens are presented while it is issued, the new session, once stored, is
      unrevoked and named by its user's marker at every later moment, unless it is presented
      itself. */
  lemma {:induction false} NewSessionSurvives(setting: Setting, s0: Tables, moves: seq<Move>)
    requires setting.token !in s0.tokens && setting.token !in setting.raws
    ensures Fresh(setting, Raced(setting, s0, moves))
  {
    hide Moved;
    if moves != [] {
      var n := |moves| - 1;
      NewSessionSurvives(setting, s0, moves[..n]);
      FreshStep(setting, Raced(setting, s0, moves[..n]), moves[n]);
    }
  }

  // ----- the presented session -----

  predicate Names(s: Tables, u: Id, t: Id) {
    u in s.markers && s.markers[u].session == t
  }

  /** What a logout's progress means for the session it presents. */
  predicate Progress(setting: Setting, r: Race, i: nat)
    requires i < |r.stages| == |setting.raws|
  {
    var raw, stage := setting.raws[i], r.stages[i];
    && (stage.Found? || stage.Revoked? || stage.Ended? ==>
          && raw in r.s.tokens && r.s.tokens[raw].user == stage.user
          && (raw == setting.token ==> r.issue.Stored? || r.issue.Over?))
    && (stage.Revoked? || stage.Ended? ==> r.s.tokens[raw].revoked)
    && (stage.Ended? ==> !Names(r.s, stage.user, raw))
    && (setting.token in r.s.tokens ==> r.issue.Stored? || r.issue.Over?)
  }

  lemma ProgressLogout(setting: Setting, r: Race, j: nat, kind: Kind, at: nat, i: nat)
    requires i < |r.stages| == |setting.raws| && Progress(setting, r, i)
    ensures Progress(setting, Moved(setting, r, LogoutMove(j, kind, at)), i)
  {
    hide UsersAfter, CredentialsAfter, ChallengesAfter, FlowsAfter, JobsAfter, Bound;
  }

  lemma ProgressIssue(setting: Setting, r: Race, kind: Kind, at: nat, i: nat)
    requires i < |r.stages| == |setting.raws| && Progress(setting, r, i)
    ensures Progress(setting, Moved(setting, r, IssueMove(kind, at)), i)
  {
    hide UsersAfter, CredentialsAfter, ChallengesAfter, FlowsAfter, JobsAfter, Bound;
  }

  lemma {:induction false} AlwaysProgress(setting: Setting, s0: Tables, moves: seq<Move>, i: nat)
    requires setting.token !in s0.tokens && i < |setting.raws|
    ensures Progress(setting, Raced(setting, s0, moves), i)
  {
    hide Moved;
    if moves != [] {
      var n := |moves| - 1;
      AlwaysProgress(setting, s0, moves[..n], i);
      var r := Raced(setting, s0, moves[..n]);
      match moves[n]
      case LogoutMove(j, kind, at) => ProgressLogout(setting, r, j, kind, at, i);
      case IssueMove(kind, at) => ProgressIssue(setting, r, kind, at, i);
    }
  }

  /** A logout that found its token live and went through has ended that session for good: at
      every later moment its token is revoked and its user's marker does not name it. */
  lemma LogoutEndsItsOwn(setting: Setting, s0: Tables, moves: seq<Move>, k: nat, i: nat)
    requires setting.token !in s0.tokens && i < |setting.raws| && k <= |moves|
    requires Raced(setting, s0, moves[..k]).stages[i].Ended?
    ensures var r := Raced(setting, s0, moves);
            var raw := setting.raws[i];
            && raw in r.s.tokens && r.s.tokens[raw].revoked && !Names(r.s, r.s.tokens[raw].user, raw)
  {
    hide Raced;
    StaysEnded(setting, s0, moves, k, i);
    AlwaysProgress(setting, s0, moves, i);
  }

  lemma {:induction false} StaysEnded(setting: Setting, s0: Tables, moves: seq<Move>, k: nat, i: nat)
    requires i < |setting.raws| && k <= |moves| && Raced(setting, s0, moves[..k]).stages[i].Ended?
    ensures Raced(setting, s0, moves).stages[i].Ended?
    decreases |moves|
  {
    hide Apply;
    var n := |moves| - 1;
    if k == |moves| {
      assert moves[..k] == moves;
    } else {
      assert moves[..n][..k] == moves[..k];
      StaysEnded(setting, s0, moves[..n], k, i);
    }
  }

  // ----- one logout on its own -----

  /** Moves of one logout, answered as the plan says. */
  function LogoutMoves(w: World): seq<Move> {
    var w1 := Turn(w);
    var w2 := Turn(w1);
    var w3 := Turn(w2);
    [LogoutMove(0, Head(w.plan).kind, w1.clock), LogoutMove(0, Head(w1.plan).kind, w2.clock),
     LogoutMove(0, Head(w2.plan).kind, w3.clock)]
  }

  lemma OneMove(setting: Setting, s0: Tables, moves: seq<Move>, m: Move)
    ensures Raced(setting, s0, moves + [m]) == Moved(setting, Raced(setting, s0, moves), m)
  {
    hide Moved;
    var longer := moves + [m];
    assert longer[..|longer| - 1] == moves;
  }

  lemma ThreeMoves(setting: Setting, s0: Tables, a: Move, b: Move, c: Move)
    ensures var start := Raced(setting, s0, []);
            Raced(setting, s0, [a, b, c]) == Moved(setting, Moved(setting, Moved(setting, start, a), b), c)
  {
    hide Moved, Raced;
    OneMove(setting, s0, [], a);
    OneMove(setting, s0, [a], b);
    OneMove(setting, s0, [a, b], c);
    assert [] + [a] == [a] && [a] + [b] == [a, b] && [a, b] + [c] == [a, b, c];
  }

  /** A logout that nobody interrupts is the use case, whatever its ports answer. */
  lemma LogoutAlone(w: World, raw: Id)
    ensures Logout(w, raw).w.tables == Raced(Setting([raw], 0, 0, 0, 0), w.tables, LogoutMoves(w)).s
  {
    hide Apply;
    var setting := Setting([raw], 0, 0, 0, 0);
    var moves := LogoutMoves(w);
    ThreeMoves(setting, w.tables, moves[0], moves[1], moves[2]);
    var start := Raced(setting, w.tables, []);
    assert start.stages == [Presented];
    var r1 := Moved(setting, start, moves[0]);
    var r2 := Moved(setting, r1, moves[1]);
    assert r1.stages == [r1.stages[0]] && r2.stages == [r2.stages[0]];
  }

  lemma ReadyIsRevokeAll(setting: Setting, w: World)
    ensures var o := RevokeAllForUser(w, setting.user);
            && IssueStep(setting, w.tables, Ready, Head(w.plan).kind, Turn(w).clock)
               == (o.w.tables, if o.r.Ok? then Killed else Over)
            && (o.r.Ok? <==> Head(w.plan).kind.Done?)
            && o.w.clock == Turn(w).clock && o.w.plan == Turn(w).plan && o.w.next == w.next
  {
    hide Apply;
  }

  lemma KilledIsActivate(setting: Setting, w: World)
    ensures var o := ActivateAndReturnPrevious(w, setting.user, setting.token, setting.ttl);
            && IssueStep(setting, w.tables, Killed, Head(w.plan).kind, Turn(w).clock)
               == (o.w.tables, if o.r.Ok? then Active(o.r.value) else Over)
            && o.w.clock == Turn(w).clock && o.w.plan == Turn(w).plan
  {
    hide Apply;
  }

  lemma ActiveIsCreate(setting: Setting, w: World, previous: Option<Id>)
    ensures var o := CreateToken(w, setting.token, RefreshToken(setting.user, setting.expiresAt, false));
            var s := if o.r.Ok? && previous.Some? then Note(o.w, Schedule(setting.user, previous.value)).tables
                  else o.w.tables;
            IssueStep(setting, w.tables, Active(previous), Head(w.plan).kind, Turn(w).clock).0 == s
  {
    hide Apply;
  }

  lemma OverStays(setting: Setting, s: Tables, kind: Kind, at: nat)
    ensures IssueStep(setting, s, Over, kind, at) == (s, Over)
  {
  }

  lemma IssueStarts(setting: Setting, s0: Tables)
    ensures var r := Raced(setting, s0, []); r.s == s0 && r.issue.Ready?
  {
  }

  /** An issue that nobody interrupts and whose token is drawn is the use case, whatever its
      ports answer. */
  lemma IssueAlone(cfg: Config, w: World, user: Id)
    requires Head(Turn(w).plan).kind.Done?
    ensures var w1 := Turn(w);
            var w2 := Turn(w1);
            var w3 := Turn(w2);
            var w4 := Turn(w3);
            var setting := Setting([], user, w.next, w2.clock + cfg.refreshTTL, cfg.refreshTTL);
            IssueSession(cfg, w, user).w.tables
            == Raced(setting, w.tables, [IssueMove(Head(w.plan).kind, w1.clock),
                                         IssueMove(Head(w2.plan).kind, w3.clock),
                                         IssueMove(Head(w3.plan).kind, w4.clock)]).s
  {
    hide Raced, IssueStep, RevokeAllForUser, ActivateAndReturnPrevious, CreateToken, Note, Apply;
    var w2 := Turn(Turn(w));
    var w3 := Turn(w2);
    var setting := Setting([], user, w.next, w2.clock + cfg.refreshTTL, cfg.refreshTTL);
    var first, second, third :=
      IssueMove(Head(w.plan).kind, Turn(w).clock), IssueMove(Head(w2.plan).kind, w3.clock),
        IssueMove(Head(w3.plan).kind, Turn(w3).clock);
    ThreeMoves(setting, w.tables, first, second, third);
    IssueStarts(setting, w.tables);
    ReadyIsRevokeAll(setting, w);
    var o1 := RevokeAllForUser(w, user);
    if o1.r.Ok? {
      var o2 := Draw(o1.w);
      KilledIsActivate(setting, o2.w);
      var o3 := ActivateAndReturnPrevious(o2.w, user, w.next, cfg.refreshTTL);
      if o3.r.Ok? {
        ActiveIsCreate(setting, o3.w, o3.r.value);
      } else {
        OverStays(setting, o3.w.tables, third.kind, third.at);
      }
    } else {
      OverStays(setting, o1.w.tables, second.kind, second.at);
      OverStays(setting, o1.w.tables, third.kind, third.at);
    }
  }

  /** Logout promises that the presented session cannot be used any more. That holds, without
      port failures, unless the token was not live when it was presented and a marker already
      named it: then the call succeeds and the marker stays. */
  lemma LogoutLeavesMarker(w: World, raw: Id, user: Id)
    requires NoFaults(w.plan) && (raw in w.tables.tokens ==> w.tables.tokens[raw].user == user)
    ensures var o := Logout(w, raw);
            && o.r.Ok?
            && (raw in o.w.tables.tokens ==> o.w.tables.tokens[raw].revoked)
            && (Names(o.w.tables, user, raw) <==>
                  Names(w.tables, user, raw) && (raw in w.tables.tokens ==> w.tables.tokens[raw].revoked))
  {
    hide Turn, UsersAfter, CredentialsAfter, ChallengesAfter, FlowsAfter, JobsAfter, Bound;
    TurnNoFaults(w);
    var w1 := Turn(w);
    TurnNoFaults(w1);
    TurnNoFaults(Revoke(w1, raw).w);
  }

  /** A refresh that succeeds leaves the presented token revoked and a new live one that its
      user's marker names. */
  lemma RotationLeavesPair(cfg: Config, w: World, raw: Id)
    requires WorldOk(cfg, [], w) && Refresh(cfg, w, raw).r.Ok?
    ensures var o := Refresh(cfg, w, raw);
            && o.r.value.Session?
            && raw in w.tables.tokens && w.tables.tokens[raw].user == o.r.value.user
            && var s, token := o.w.tables, o.r.value.token;
            && raw in s.tokens && s.tokens[raw].revoked
            && Live(s, token) && s.tokens[token].user == s.tokens[raw].user == o.r.value.user
  {
    hide Rotate, Legal, Replay, Write;
    var (w1, rt) := GetToken(w, raw).NotFoundAs(InvalidRefreshToken).Extract();
    var (w2, u) := GetUser(w1, rt.user).AnyErrorAs(InvalidRefreshToken).Extract();
    AskOk(cfg, [], w);
    AskOk(cfg, [], w1);
    RotateLeavesPair(cfg, w2, rt.user, raw);
  }

  lemma RotateLeavesPair(cfg: Config, w: World, user: Id, raw: Id)
    requires WorldOk(cfg, [], w) && IsActive(w.tables, user)
    requires Live(w.tables, raw) && w.tables.tokens[raw].user == user && Rotate(cfg, w, user, raw).r.Ok?
    ensures var o := Rotate(cfg, w, user, raw);
            && o.r.value.Session? && o.r.value.user == user
            && var s, token := o.w.tables, o.r.value.token;
            && raw in s.tokens && s.tokens[raw].revoked && s.tokens[raw].user == user
            && Live(s, token) && s.tokens[token].user == user
  {
    hide IssueSession, WorldOk, Write, Turn, IssuedFrom;
    AskOk(cfg, [], w);
    WriteOk(cfg, [], w, RevokeOne(raw));
    RevokeRevokes(cfg, w, raw);
    var o1 := Revoke(w, raw);
    IssueSessionOk(cfg, [], o1.w, user);
    var o2 := IssueSession(cfg, o1.w, user);
    IssueKeepsRevoked(cfg, o1.w, user, raw);
  }

  lemma RevokeRevokes(cfg: Config, w: World, raw: Id)
    requires WorldOk(cfg, [], w) && Live(w.tables, raw)
    ensures var o := Revoke(w, raw);
            o.r.Ok? ==>
              && raw in o.w.tables.tokens && o.w.tables.tokens[raw] == w.tables.tokens[raw].(revoked := true)
              && raw < o.w.next && o.w.tables.users == w.tables.users
  {
    hide Legal, Replay;
    Structural(cfg, w.tables.log);
  }

  /** A revoked token stays as it is when nothing is stored in its place. */
  lemma RevokedStays(w: World, e: Effect, raw: Id)
    requires raw in w.tables.tokens && w.tables.tokens[raw].revoked
    requires e.RevokeAll? || e.Activate? || e.Schedule? || (e.AddToken? && e.token != raw)
    ensures var s := Write(w, e).w.tables; raw in s.tokens && s.tokens[raw] == w.tables.tokens[raw]
    ensures var s := Note(w, e).tables; raw in s.tokens && s.tokens[raw] == w.tables.tokens[raw]
    ensures Turn(w).tables == w.tables && Draw(w).w.tables == w.tables && Write(w, e).w.next == w.next
    ensures Draw(w).r.Ok? ==> Draw(w).r.value == w.next
  {
    hide UsersAfter, CredentialsAfter, ChallengesAfter, FlowsAfter, MarkersAfter, JobsAfter, Bound;
  }

  lemma IssueKeepsRevoked(cfg: Config, w: World, user: Id, raw: Id)
    requires raw in w.tables.tokens && w.tables.tokens[raw].revoked && raw < w.next
    ensures var s := IssueSession(cfg, w, user).w.tables;
            raw in s.tokens && s.tokens[raw] == w.tables.tokens[raw]
  {
    hide Write, Draw, Note, Turn, Apply, LiveMarker;
    RevokedStays(w, RevokeAll(user), raw);
    var o1 := RevokeAllForUser(w, user);
    RevokedStays(o1.w, RevokeAll(user), raw);
    var o2 := Draw(o1.w);
    if o1.r.Ok? && o2.r.Ok? {
      var token := o2.r.value;
      RevokedStays(o2.w, Activate(user, token, Turn(o2.w).clock + cfg.refreshTTL), raw);
      var o3 := ActivateAndReturnPrevious(o2.w, user, token, cfg.refreshTTL);
      var row := RefreshToken(user, o2.w.clock + cfg.refreshTTL, false);
      RevokedStays(o3.w, AddToken(token, row), raw);
      var o4 := CreateToken(o3.w, token, row);
      if o3.r.Ok? {
        var previous := if o3.r.value.Some? then o3.r.value.value else 0;
        RevokedStays(o4.w, Schedule(user, previous), raw);
        RevokedStays(Note(o4.w, Schedule(user, previous)), Schedule(user, previous), raw);
      }
    }
  }

  /** The broken promise needs no failing port: when an older, revoked token is presented again
      the reuse kills the live token but not its marker, and the logout that follows answers
      success while the marker goes on naming the session. */
  lemma ReuseThenLogout(cfg: Config, w: World, older: Id, raw: Id, reuse: Call, logout: Call)
    requires WorldOk(cfg, [], w) && Live(w.tables, raw)
    requires older in w.tables.tokens && w.tables.tokens[older].revoked
    requires w.tables.tokens[older].user == w.tables.tokens[raw].user
    requires reuse.request == DoRefresh(older) && logout.request == DoLogout(raw)
    requires NoFaults(reuse.plan) && NoFaults(logout.plan)
    ensures var o := Exec(cfg, Exec(cfg, w, reuse).w, logout);
            o.r.Ok? && Names(o.w.tables, w.tables.tokens[raw].user, raw)
  {
    hide Refresh, Logout, Legal, Replay, Marked;
    AlwaysMarked(cfg, w.tables.log);
    MarkedNames(w.tables, raw);
    var user := w.tables.tokens[raw].user;
    var w1 := Enter(w, reuse);
    ReuseLeavesMarker(cfg, w1, older);
    ReuseKillsOnly(cfg, w1, older, raw);
    LogoutLeavesMarker(Enter(Refresh(cfg, w1, older).w, logout), raw, user);
  }

  lemma MarkedNames(s: Tables, raw: Id)
    requires Marked(s) && Live(s, raw)
    ensures Names(s, s.tokens[raw].user, raw)
  {
  }

  lemma ReuseKillsOnly(cfg: Config, w: World, older: Id, raw: Id)
    requires NoFaults(w.plan) && older in w.tables.tokens && w.tables.tokens[older].revoked && raw in w.tables.tokens
    ensures var s := Refresh(cfg, w, older).w.tables;
            raw in s.tokens && s.tokens[raw].user == w.tables.tokens[raw].user
  {
    hide Rotate, UsersAfter, CredentialsAfter, ChallengesAfter, FlowsAfter, MarkersAfter, JobsAfter, Bound;
  }
}
