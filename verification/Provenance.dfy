/** Where sessions come from: every refresh token handed out goes back, through a finite
    chain of rotations, to one accepted OTP of its user. */
module Provenance {
  import opened Basics
  import opened Store
  import opened Repositories
  import opened AuthSpec
  import opened Protocol
  import opened Structure

  /** A property that every enabled effect keeps holds from position i on. */
  lemma {:induction false} Persists(cfg: Config, log: seq<Entry>, kept: Tables -> bool, i: nat, j: nat)
    requires Legal(cfg, log) && i <= j <= |log|
    requires kept(Replay(log[..i]))
    requires forall s: Tables, at: nat, e: Effect | kept(s) && Enabled(cfg, s, at, e) :: kept(Apply(s, at, e))
    ensures kept(Replay(log[..j]))
  {
    hide Enabled, Apply, Legal, Replay;
    if i < j {
      Persists(cfg, log, kept, i, j - 1);
      EntryEnabled(cfg, log, j - 1);
    }
  }

  // ----- creation -----

  /** The position of the latest creation of the token. */
  function LastCreation(log: seq<Entry>, token: Id): (k: Option<nat>)
    ensures k.Some? ==> k.value < |log| && CreatesToken(log[k.value].what, token)
    ensures k.None? ==> NeverCreated(log, token)
  {
    if log == [] then None
    else
      var n := |log| - 1;
      if CreatesToken(log[n].what, token) then Some(n) else LastCreation(log[..n], token)
  }

  predicate Known(s: Tables, token: Id) {
    var k := LastCreation(s.log, token);
    k.Some? && token in s.tokens && s.log[k.value].what.row.user == s.tokens[token].user
  }

  lemma KnownStep(cfg: Config, s: Tables, at: nat, e: Effect)
    requires (forall t | t in s.tokens :: Known(s, t)) && Enabled(cfg, s, at, e)
    ensures forall t | t in Apply(s, at, e).tokens :: Known(Apply(s, at, e), t)
  {
    hide Enabled, UsersAfter, CredentialsAfter, ChallengesAfter, FlowsAfter, MarkersAfter, JobsAfter, Bound;
    var s' := Apply(s, at, e);
    forall t | t in s'.tokens
      ensures Known(s', t)
    {
      assert s'.log[..|s.log|] == s.log;
      if !CreatesToken(e, t) {
        assert Known(s, t);
      }
    }
  }

  /** Every stored token was created for the user it belongs to. */
  lemma {:induction false} AllKnown(cfg: Config, log: seq<Entry>)
    requires Legal(cfg, log)
    ensures forall t | t in Replay(log).tokens :: Known(Replay(log), t)
  {
    hide Enabled, Apply, Known;
    if log != [] {
      var n := |log| - 1;
      AllKnown(cfg, log[..n]);
      KnownStep(cfg, Replay(log[..n]), log[n].at, log[n].what);
    }
  }

  lemma NotCreatedBefore(cfg: Config, log: seq<Entry>, j: nat, token: Id)
    requires Legal(cfg, log) && j < |log| && CreatesToken(log[j].what, token)
    ensures NeverCreated(log[..j], token)
  {
    hide Apply, Legal, Replay;
    EntryEnabled(cfg, log, j);
  }

  /** No token is created twice. */
  lemma CreatedOnce(cfg: Config, log: seq<Entry>, i: nat, j: nat, token: Id)
    requires Legal(cfg, log) && i <= j < |log|
    requires CreatesToken(log[i].what, token) && CreatesToken(log[j].what, token)
    ensures i == j
  {
    hide Apply, Legal, Replay, Enabled;
    NotCreatedBefore(cfg, log, j, token);
    var before := log[..j];
    assert forall k | 0 <= k < j :: before[k] == log[k];
  }

  // ----- chains of rotations -----

  /** The position of the accepted OTP at the root of the token created at position k:
      three writes earlier, or that of the token whose rotation created it. */
  function Root(log: seq<Entry>, k: nat): Option<nat>
    requires k < |log|
    decreases k
  {
    if k < 3 || !log[k].what.AddToken? then None
    else if IsPass(log[k - 3].what, log[k].what.row.user) then Some(k - 3)
    else if log[k - 3].what.RevokeOne? then
      var parent := LastCreation(log[..k], log[k - 3].what.token);
      if parent.Some? then Root(log, parent.value) else None
    else None
  }

  /** How many rotations lie between the token created at position k and its root. */
  function Rotations(log: seq<Entry>, k: nat): nat
    requires k < |log|
    decreases k
  {
    if k < 3 || !log[k].what.AddToken? then 0
    else if IsPass(log[k - 3].what, log[k].what.row.user) then 0
    else if log[k - 3].what.RevokeOne? then
      var parent := LastCreation(log[..k], log[k - 3].what.token);
      if parent.Some? then Rotations(log, parent.value) + 1 else 0
    else 0
  }

  /** What opened the issue of the token created at position k: an OTP accepted for setup or
      login, or the revocation of a live token of the same user. */
  lemma OpeningOf(cfg: Config, log: seq<Entry>, k: nat)
    requires Legal(cfg, log) && k < |log| && log[k].what.AddToken?
    ensures k >= 3
    ensures var user := log[k].what.row.user;
            var opening := log[k - 3].what;
            || OpensByOtp(opening, user)
            || (&& opening.RevokeOne?
                && var before := Replay(log[..k - 3]);
                && opening.token in before.tokens
                && !before.tokens[opening.token].revoked
                && before.tokens[opening.token].user == user)
  {
    hide Legal, Replay;
    EntryEnabled(cfg, log, k);
    assert log[..k][k - 3] == log[k - 3] && log[..k][k - 2] == log[k - 2] && log[..k][k - 1] == log[k - 1];
    EntryEnabled(cfg, log, k - 3);
    EntryEnabled(cfg, log, k - 2);
    EntryEnabled(cfg, log, k - 1);
  }

  /** The parent of a rotated token was created earlier, for the same user. */
  lemma ParentOf(cfg: Config, log: seq<Entry>, k: nat)
    requires Legal(cfg, log) && k < |log| && log[k].what.AddToken? && k >= 3 && log[k - 3].what.RevokeOne?
    ensures var parent := LastCreation(log[..k], log[k - 3].what.token);
            parent.Some? && log[parent.value].what.AddToken? && log[parent.value].what.row.user == log[k].what.row.user
  {
    hide Legal, Replay, Enabled, Apply;
    OpeningOf(cfg, log, k);
    PrefixLegal(cfg, log, k - 3);
    AllKnown(cfg, log[..k - 3]);
    ReplayKeepsLog(log[..k - 3]);
    var token := log[k - 3].what.token;
    var early := LastCreation(log[..k - 3], token).value;
    assert CreatesToken(log[..k - 3][early].what, token) && log[early] == log[..k - 3][early] == log[..k][early];
    var late := LastCreation(log[..k], token);
    assert log[late.value] == log[..k][late.value];
    CreatedOnce(cfg, log, if early <= late.value then early else late.value,
                if early <= late.value then late.value else early, token);
  }

  /** Every created token has a root: an OTP of the same user, accepted earlier, for setup
      or login. */
  lemma {:induction false} RootExists(cfg: Config, log: seq<Entry>, k: nat)
    requires Legal(cfg, log) && k < |log| && log[k].what.AddToken?
    ensures var r := Root(log, k);
            && r.Some? && r.value < k
            && OpensByOtp(log[r.value].what, log[k].what.row.user)
    decreases k
  {
    hide Legal, Replay, Enabled, Apply;
    OpeningOf(cfg, log, k);
    if log[k - 3].what.RevokeOne? {
      ParentOf(cfg, log, k);
      RootExists(cfg, log, LastCreation(log[..k], log[k - 3].what.token).value);
    }
  }

  predicate Spent(s: Tables, token: Id) {
    !NeverCreated(s.log, token) && (token in s.tokens ==> s.tokens[token].revoked)
  }

  lemma SpentStep(cfg: Config, s: Tables, at: nat, e: Effect, token: Id)
    requires Spent(s, token) && Enabled(cfg, s, at, e)
    ensures Spent(Apply(s, at, e), token)
  {
    hide UsersAfter, CredentialsAfter, ChallengesAfter, FlowsAfter, MarkersAfter, JobsAfter, Bound;
    var i :| 0 <= i < |s.log| && CreatesToken(s.log[i].what, token);
    assert CreatesToken(Apply(s, at, e).log[i].what, token);
  }

  /** A token is revoked on its own at most once: revocation is permanent. */
  lemma RevokedOnce(cfg: Config, log: seq<Entry>, i: nat, j: nat, token: Id)
    requires Legal(cfg, log) && i <= j < |log|
    requires log[i].what == RevokeOne(token) && log[j].what == RevokeOne(token)
    ensures i == j
  {
    hide Legal, Replay, Enabled, Apply, Spent;
    EntryEnabled(cfg, log, i);
    EntryEnabled(cfg, log, j);
    if i < j {
      SpentAfter(cfg, log, i, token);
      forall s: Tables, at: nat, e: Effect | Spent(s, token) && Enabled(cfg, s, at, e)
        ensures Spent(Apply(s, at, e), token)
      {
        SpentStep(cfg, s, at, e, token);
      }
      Persists(cfg, log, s => Spent(s, token), i + 1, j);
      SpentNotRevocable(cfg, Replay(log[..j]), log[j].at, token);
    }
  }

  lemma SpentNotRevocable(cfg: Config, s: Tables, at: nat, token: Id)
    requires Spent(s, token)
    ensures !Enabled(cfg, s, at, RevokeOne(token))
  {
  }

  lemma SpentAfter(cfg: Config, log: seq<Entry>, i: nat, token: Id)
    requires Legal(cfg, log) && i < |log| && log[i].what == RevokeOne(token)
    ensures Spent(Replay(log[..i + 1]), token)
  {
    hide Legal, Replay;
    EntryEnabled(cfg, log, i);
    AllKnown(cfg, log[..i]);
    var k := LastCreation(log[..i], token).value;
    var s := Replay(log[..i + 1]);
    assert CreatesToken(s.log[k].what, token);
  }

  /** The chains are linear: tokens with the same root and the same number of rotations are
      one token. So distinct roots use distinct accepted OTPs, and no token is rotated twice. */
  lemma {:induction false} ChainsAreLinear(cfg: Config, log: seq<Entry>, k: nat, l: nat)
    requires Legal(cfg, log) && k < |log| && l < |log| && log[k].what.AddToken? && log[l].what.AddToken?
    requires Root(log, k) == Root(log, l) && Rotations(log, k) == Rotations(log, l)
    ensures k == l
    decreases k
  {
    hide Legal, Replay, Enabled, Apply;
    OpeningOf(cfg, log, k);
    OpeningOf(cfg, log, l);
    if log[k - 3].what.RevokeOne? {
      ParentOf(cfg, log, k);
      var p := LastCreation(log[..k], log[k - 3].what.token).value;
      if log[l - 3].what.RevokeOne? {
        ParentOf(cfg, log, l);
        var q := LastCreation(log[..l], log[l - 3].what.token).value;
        ChainsAreLinear(cfg, log, p, q);
        assert log[p] == log[..k][p] && log[q] == log[..l][q];
        RevokedOnce(cfg, log, if k <= l then k - 3 else l - 3, if k <= l then l - 3 else k - 3, log[k - 3].what.token);
      }
    } else if log[l - 3].what.RevokeOne? {
      ParentOf(cfg, log, l);
    } else {
      assert Root(log, k) == Some(k - 3) && Root(log, l) == Some(l - 3);
    }
  }

  // ----- delivery -----

  /** A session handed to a client was created for that client's user and has a root. */
  lemma DeliveredHasRoot(cfg: Config, log: seq<Entry>, i: nat)
    requires Legal(cfg, log) && i < |log| && log[i].what.Deliver?
    ensures var k := LastCreation(log[..i], log[i].what.token);
            && k.Some? && log[k.value].what.AddToken? && log[k.value].what.row.user == log[i].what.user
            && var r := Root(log, k.value);
            && r.Some? && r.value < k.value && IsPass(log[r.value].what, log[i].what.user)
  {
    hide Legal, Replay, Apply;
    EntryEnabled(cfg, log, i);
    AllKnown(cfg, log[..i]);
    var k := LastCreation(log[..i], log[i].what.token).value;
    assert log[..i][k] == log[k];
    RootExists(cfg, log, k);
  }

  predicate Consumed(s: Tables, challenge: Id) {
    challenge < s.top && (challenge in s.challenges ==> s.challenges[challenge].consumed)
  }

  lemma ConsumedStep(cfg: Config, s: Tables, at: nat, e: Effect, challenge: Id)
    requires Consumed(s, challenge) && Enabled(cfg, s, at, e)
    ensures Consumed(Apply(s, at, e), challenge)
  {
    hide UsersAfter, CredentialsAfter, TokensAfter, FlowsAfter, MarkersAfter, JobsAfter;
  }

  lemma ConsumedBy(cfg: Config, log: seq<Entry>, i: nat, challenge: Id)
    requires Legal(cfg, log) && i < |log| && log[i].what == Consume(challenge)
    ensures Consumed(Replay(log[..i + 1]), challenge)
  {
    hide Legal, Replay;
    EntryEnabled(cfg, log, i);
    Structural(cfg, log[..i]);
  }

  lemma ConsumedOnce(cfg: Config, log: seq<Entry>, i: nat, j: nat, challenge: Id)
    requires Legal(cfg, log) && i <= j < |log|
    requires log[i].what == Consume(challenge) && log[j].what == Consume(challenge)
    ensures i == j
  {
    hide Legal, Replay, Apply;
    EntryEnabled(cfg, log, j);
    if i < j {
      ConsumedBy(cfg, log, i, challenge);
      forall s: Tables, at: nat, e: Effect | Consumed(s, challenge) && Enabled(cfg, s, at, e)
        ensures Consumed(Apply(s, at, e), challenge)
      {
        ConsumedStep(cfg, s, at, e, challenge);
      }
      Persists(cfg, log, s => Consumed(s, challenge), i + 1, j);
    }
  }

  /** No credential holds the setup token, now or later. */
  predicate SetupOver(s: Tables, token: Id) {
    token < s.top && forall u | u in s.credentials :: !HoldsSetup(s.credentials[u], token)
  }

  lemma SetupOverStep(cfg: Config, s: Tables, at: nat, e: Effect, token: Id)
    requires SetupOver(s, token) && Enabled(cfg, s, at, e)
    ensures SetupOver(Apply(s, at, e), token)
  {
    hide UsersAfter, ChallengesAfter, TokensAfter, FlowsAfter, MarkersAfter, JobsAfter;
  }

  /** Two accounts never share a pending setup token. */
  predicate SetupsDistinct(s: Tables) {
    forall u, v | u in s.credentials && v in s.credentials && s.credentials[u].setup.Some?
      && s.credentials[v].setup.Some?
                  && s.credentials[u].setup.value.token == s.credentials[v].setup.value.token :: u == v
  }

  lemma SetupsDistinctStep(cfg: Config, s: Tables, at: nat, e: Effect)
    requires SetupBounded(s) && SetupsDistinct(s) && Enabled(cfg, s, at, e)
    ensures SetupsDistinct(Apply(s, at, e))
  {
    hide UsersAfter, ChallengesAfter, TokensAfter, FlowsAfter, MarkersAfter, JobsAfter;
  }

  lemma {:induction false} SetupsAlwaysDistinct(cfg: Config, log: seq<Entry>)
    requires Legal(cfg, log)
    ensures SetupsDistinct(Replay(log))
  {
    hide Enabled, Apply;
    if log != [] {
      var n := |log| - 1;
      SetupsAlwaysDistinct(cfg, log[..n]);
      Structural(cfg, log[..n]);
      SetupsDistinctStep(cfg, Replay(log[..n]), log[n].at, log[n].what);
    }
  }

  predicate EnrolsWith(e: Effect, token: Id) {
    e.WriteCredential? && e.why == Enrolled(token)
  }

  lemma SetupOverBy(cfg: Config, log: seq<Entry>, i: nat, token: Id)
    requires Legal(cfg, log) && i < |log| && EnrolsWith(log[i].what, token)
    ensures SetupOver(Replay(log[..i + 1]), token)
  {
    hide Legal, Replay;
    EntryEnabled(cfg, log, i);
    Structural(cfg, log[..i]);
    SetupsAlwaysDistinct(cfg, log[..i]);
  }

  lemma EnrolledOnce(cfg: Config, log: seq<Entry>, i: nat, j: nat, token: Id)
    requires Legal(cfg, log) && i <= j < |log|
    requires EnrolsWith(log[i].what, token) && EnrolsWith(log[j].what, token)
    ensures i == j
  {
    hide Legal, Replay, Apply;
    EntryEnabled(cfg, log, j);
    if i < j {
      SetupOverBy(cfg, log, i, token);
      forall s: Tables, at: nat, e: Effect | SetupOver(s, token) && Enabled(cfg, s, at, e)
        ensures SetupOver(Apply(s, at, e), token)
      {
        SetupOverStep(cfg, s, at, e, token);
      }
      Persists(cfg, log, s => SetupOver(s, token), i + 1, j);
    }
  }

  /** A login challenge, and likewise a setup token, delivers at most one session. */
  lemma DeliversAtMostOnce(cfg: Config, log: seq<Entry>, i: nat, j: nat)
    requires Legal(cfg, log) && i <= j < |log| && log[i].what.Deliver? && log[j].what.Deliver?
    requires log[i].what.via == log[j].what.via && !log[i].what.via.ViaRefresh?
    ensures i == j
  {
    hide Legal, Replay, Apply;
    EntryEnabled(cfg, log, i);
    EntryEnabled(cfg, log, j);
    assert log[..i][i - 1] == log[i - 1] && log[..j][j - 1] == log[j - 1];
    match log[i].what.via
    case ViaChallenge(c) => ConsumedOnce(cfg, log, i - 1, j - 1, c);
    case ViaSetup(t) => EnrolledOnce(cfg, log, i - 1, j - 1, t);
  }
}
