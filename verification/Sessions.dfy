/** One live session for each user, after every micro-step of every run. */
module Sessions {
  import opened Basics
  import opened Store
  import opened AuthSpec
  import opened Protocol
  import opened Conformance

  predicate Live(s: Tables, token: Id) {
    token in s.tokens && !s.tokens[token].revoked
  }

  /** Every unrevoked token is the one its user's marker names, and the marker outlasts it. */
  ghost predicate Marked(s: Tables) {
    forall t | Live(s, t) ::
      && s.tokens[t].user in s.markers
      && s.markers[s.tokens[t].user].session == t
      && s.tokens[t].expiresAt <= s.markers[s.tokens[t].user].expiresAt
  }

  lemma MarkedStep(cfg: Config, s: Tables, at: nat, e: Effect)
    requires Marked(s) && Enabled(cfg, s, at, e)
    ensures Marked(Apply(s, at, e))
  {
    hide UsersAfter, CredentialsAfter, ChallengesAfter, FlowsAfter, JobsAfter, Bound;
    var s' := Apply(s, at, e);
    forall t | Live(s', t)
      ensures && s'.tokens[t].user in s'.markers
              && s'.markers[s'.tokens[t].user].session == t
              && s'.tokens[t].expiresAt <= s'.markers[s'.tokens[t].user].expiresAt
    {
      if !e.AddToken? {
        assert Live(s, t);
      }
    }
  }

  lemma {:induction false} AlwaysMarked(cfg: Config, log: seq<Entry>)
    requires Legal(cfg, log)
    ensures Marked(Replay(log))
  {
    hide Enabled, Apply, Marked;
    if log != [] {
      var n := |log| - 1;
      AlwaysMarked(cfg, log[..n]);
      MarkedStep(cfg, Replay(log[..n]), log[n].at, log[n].what);
    } else {
      NothingMarked();
    }
  }

  lemma NothingMarked()
    ensures Marked(EMPTY)
  {
  }

  /** In the state a legal log leads to, a user has at most one unrevoked token; while that
      token is unexpired the user's marker is live and names it. */
  lemma OneLiveSession(cfg: Config, log: seq<Entry>, token: Id, other: Id, now: int)
    requires Legal(cfg, log)
    requires var s := Replay(log); Live(s, token) && Live(s, other) && s.tokens[token].user == s.tokens[other].user
    ensures var s := Replay(log);
            var user := s.tokens[token].user;
            && token == other
            && user in s.markers && s.markers[user].session == token
            && (!s.tokens[token].IsExpired(now) ==> s.markers[user].IsLive(now))
  {
    hide Legal, Enabled, Apply, Replay;
    AlwaysMarked(cfg, log);
  }

  /** The same at every micro-step k of every run of calls from the empty database. */
  lemma OneLiveSessionInEveryRun(cfg: Config, calls: seq<Call>, k: nat, token: Id, other: Id, now: int)
    requires k <= |Run(cfg, START, calls).tables.log|
    requires var s := Replay(Run(cfg, START, calls).tables.log[..k]);
             Live(s, token) && Live(s, other) && s.tokens[token].user == s.tokens[other].user
    ensures var s := Replay(Run(cfg, START, calls).tables.log[..k]);
            var user := s.tokens[token].user;
            && token == other
            && user in s.markers && s.markers[user].session == token
            && (!s.tokens[token].IsExpired(now) ==> s.markers[user].IsLive(now))
  {
    hide Legal, Enabled, Apply, Replay, Run;
    StartOk(cfg);
    RunsAreLegal(cfg, [], START, calls);
    var log := Run(cfg, START, calls).tables.log;
    PrefixLegal(cfg, log, k);
    OneLiveSession(cfg, log[..k], token, other, now);
  }

  /** The agreement is one-directional: presenting a revoked token kills every token of its
      user but leaves the marker in place. */
  lemma ReuseLeavesMarker(cfg: Config, w: World, raw: Id)
    requires NoFaults(w.plan) && raw in w.tables.tokens && w.tables.tokens[raw].revoked
    ensures var o := Refresh(cfg, w, raw);
            && o.r == Err(InvalidRefreshToken)
            && o.w.tables.markers == w.tables.markers
            && NoLiveToken(o.w.tables, w.tables.tokens[raw].user)
  {
    hide Rotate, Turn;
    TurnNoFaults(w);
    TurnNoFaults(Turn(w));
  }
}
